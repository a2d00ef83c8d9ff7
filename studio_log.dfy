/**
 * The line protocol of the local backend: each line the batch launcher
 * prints is classified by its prefix into a log level, and two kinds of
 * sentinel line leave a per-thread trace (the first line of an error
 * message and the exit code) from which the connector decides whether
 * the launch failed.
 */
module StudioLog {
  import opened Wrappers
  import opened Text

  /** Python `logging` levels, and the level given to exit-code lines. */
  const DEBUG := 10
  const INFO := 20
  const WARNING := 30
  const ERROR := 40
  const EXIT_LEVEL := -1

  const ERROR_MSG_FIRST_LINE := "RAPIDMINER_ERROR_MSG_FIRST_LINE="
  const ERROR_MSG := "RAPIDMINER_ERROR_MSG="
  const EXIT_CODE_MSG := "EXIT_CODE="

  /**
   * What one launcher line amounts to: the text to log, its level, the
   * error text to record for the thread (if any) and the exit code to
   * record for the thread (if any).
   */
  datatype LineScan = LineScan(text: string, level: int, errorLine: Option<string>, exitCode: Option<int>)

  /** The exit code recorded for an `EXIT_CODE=` line: `int(msg[10:])`, or 0 when that raises. */
  function ExitCodeOf(msg: string): int
    requires StartsWith(msg, EXIT_CODE_MSG)
  {
    var v := ParseInt(msg[|EXIT_CODE_MSG|..]);
    if v.Some? then v.value else 0
  }

  /** The prefixes in the order `__extract_log_level` tries them, each with the level it gives. */
  const Prefixes: seq<(string, int)> := [
    ("FINEST: ", DEBUG), ("FINER: ", DEBUG), ("DEBUG: ", DEBUG), ("CONFIG: ", DEBUG),
    ("INFO: ", INFO), ("WARNING: ", WARNING), ("SEVERE: ", ERROR),
    (ERROR_MSG_FIRST_LINE, ERROR), (ERROR_MSG, ERROR), (EXIT_CODE_MSG, EXIT_LEVEL)
  ]
  const FIRST_LINE_ENTRY := 7
  const EXIT_ENTRY := 9

  /**
   * The scan of a line that starts with the `k`-th prefix: the exit-code
   * line keeps its text and records its code, the others lose the prefix,
   * and the first-line error line also records its text.
   */
  function Entry(k: int, msg: string): LineScan
    requires 0 <= k < |Prefixes| && StartsWith(msg, Prefixes[k].0)
  {
    if k == EXIT_ENTRY then LineScan(msg, EXIT_LEVEL, None, Some(ExitCodeOf(msg)))
    else
      var rest := msg[|Prefixes[k].0|..];
      LineScan(rest, Prefixes[k].1, if k == FIRST_LINE_ENTRY then Some(rest) else None, None)
  }

  /** The classification of a line, trying the prefixes from the `k`-th on; a line with none is logged at INFO. */
  function ScanFrom(msg: string, k: nat): LineScan
    requires k <= |Prefixes|
    decreases |Prefixes| - k
  {
    if k == |Prefixes| then LineScan(msg, INFO, None, None)
    else if StartsWith(msg, Prefixes[k].0) then Entry(k, msg)
    else ScanFrom(msg, k + 1)
  }

  /** The classification `__extract_log_level` performs. */
  function Scan(msg: string): LineScan {
    ScanFrom(msg, 0)
  }

  /** Two prefixes that differ at position `k` cannot both start the same line. */
  lemma Diverge(msg: string, p: string, q: string, k: nat)
    requires k < |p| && k < |q| && p[k] != q[k]
    ensures !StartsWith(msg, p) || !StartsWith(msg, q)
  {
    if StartsWith(msg, p) {
      assert msg[..|p|][k] == msg[k];
      if |q| <= |msg| {
        assert msg[..|q|][k] == msg[k];
      }
    }
  }

  /** No prefix of the table starts with another, so at most one of them matches a line. */
  lemma PrefixesExclusive(msg: string, i: int, j: int)
    requires 0 <= i < j < |Prefixes|
    ensures !StartsWith(msg, Prefixes[i].0) || !StartsWith(msg, Prefixes[j].0)
  {
    if i == 0 && j == 1 {
      Diverge(msg, Prefixes[i].0, Prefixes[j].0, 4);
    } else if i == 7 && j == 8 {
      Diverge(msg, Prefixes[i].0, Prefixes[j].0, 20);
    } else {
      Diverge(msg, Prefixes[i].0, Prefixes[j].0, 0);
    }
  }

  /** A line that starts with the `k`-th prefix is classified by that entry: no earlier prefix matches it. */
  lemma {:induction false} ScanFromMatch(msg: string, k: int, from: nat)
    requires from <= k < |Prefixes| && StartsWith(msg, Prefixes[k].0)
    ensures ScanFrom(msg, from) == Entry(k, msg)
    decreases k - from
  {
    if from < k {
      PrefixesExclusive(msg, from, k);
      ScanFromMatch(msg, k, from + 1);
    }
  }

  /**
   * A line that starts with a level prefix is logged at that level with
   * the prefix stripped; only the first-line error prefix records text.
   */
  lemma ScanPrefixed(k: int, rest: string)
    requires 0 <= k < |Prefixes| && k != EXIT_ENTRY
    ensures var s := Scan(Prefixes[k].0 + rest);
      && s.text == rest
      && s.level == Prefixes[k].1
      && s.exitCode == None
      && (s.errorLine == if k == FIRST_LINE_ENTRY then Some(rest) else None)
  {
    var msg := Prefixes[k].0 + rest;
    assert msg[..|Prefixes[k].0|] == Prefixes[k].0;
    ScanFromMatch(msg, k, 0);
    assert msg[|Prefixes[k].0|..] == rest;
  }

  /**
   * An `EXIT_CODE=` line keeps its text, gets level -1, and records the
   * integer after the prefix; a launcher that writes the code the way
   * Python's `str` does, followed by whitespace, has it read back exactly.
   */
  lemma ScanExitCode(code: int, w: string)
    requires forall i :: 0 <= i < |w| ==> IsSpace(w[i])
    ensures var msg := EXIT_CODE_MSG + IntText(code) + w;
      Scan(msg) == LineScan(msg, EXIT_LEVEL, None, Some(code))
  {
    var rest := IntText(code) + w;
    var msg := EXIT_CODE_MSG + rest;
    assert msg == EXIT_CODE_MSG + IntText(code) + w;
    assert msg[..10] == EXIT_CODE_MSG && msg[10..] == rest;
    ScanFromMatch(msg, EXIT_ENTRY, 0);
    ParseIntText(code, w);
  }

  /** An `EXIT_CODE=` line whose remainder is not an integer records 0. */
  lemma ScanExitCodeGarbage(rest: string)
    requires ParseInt(rest).None?
    ensures Scan(EXIT_CODE_MSG + rest).exitCode == Some(0)
  {
    var msg := EXIT_CODE_MSG + rest;
    assert msg[..10] == EXIT_CODE_MSG;
    ScanFromMatch(msg, EXIT_ENTRY, 0);
    assert msg[10..] == rest;
  }

  /** A line with none of the prefixes is logged unchanged at INFO and records nothing. */
  lemma {:induction false} ScanUnprefixed(msg: string, from: nat)
    requires from <= |Prefixes|
    requires forall k :: from <= k < |Prefixes| ==> !StartsWith(msg, Prefixes[k].0)
    ensures ScanFrom(msg, from) == LineScan(msg, INFO, None, None)
    decreases |Prefixes| - from
  {
    if from < |Prefixes| {
      ScanUnprefixed(msg, from + 1);
    }
  }

  // ---------------------------------------------------------------------
  // The per-thread slots
  // ---------------------------------------------------------------------

  /** The slots of one thread: its last recorded exit code and first-line error text. */
  datatype Slots = Slots(exitCode: Option<int>, errorText: Option<string>)

  /** The slots once one more line with the given scan was processed: what the line records replaces the slot. */
  function Advance(slots: Slots, scan: LineScan): Slots {
    Slots(if scan.exitCode.Some? then scan.exitCode else slots.exitCode,
          if scan.errorLine.Some? then scan.errorLine else slots.errorText)
  }

  /** The slots after lines with the given scans were processed, starting from `init`. */
  function Replay(init: Slots, scans: seq<LineScan>): Slots
    decreases |scans|
  {
    if scans == [] then init
    else Advance(Replay(init, scans[..|scans| - 1]), scans[|scans| - 1])
  }

  lemma ReplaySnoc(init: Slots, scans: seq<LineScan>, s: LineScan)
    ensures Replay(init, scans + [s]) == Advance(Replay(init, scans), s)
  {
    assert (scans + [s])[..|scans|] == scans;
  }

  /** The slots after lines with the given scans were processed, starting from cleared slots. */
  function SlotsOf(scans: seq<LineScan>): Slots {
    Replay(Slots(None, None), scans)
  }

  /** The scans of a sequence of lines. */
  function Scans(lines: seq<string>): seq<LineScan>
    decreases |lines|
  {
    if lines == [] then [] else Scans(lines[..|lines| - 1]) + [Scan(lines[|lines| - 1])]
  }

  lemma {:induction false} ScansAt(lines: seq<string>)
    ensures |Scans(lines)| == |lines|
    ensures forall i :: 0 <= i < |lines| ==> Scans(lines)[i] == Scan(lines[i])
    decreases |lines|
  {
    if lines != [] {
      var init := lines[..|lines| - 1];
      ScansAt(init);
      assert forall i :: 0 <= i < |init| ==> init[i] == lines[i];
    }
  }

  /**
   * The recorded exit code is that of the LAST exit-code line, and there
   * is none exactly when no line carries one.
   */
  lemma {:induction false} LastExitCode(scans: seq<LineScan>)
    ensures SlotsOf(scans).exitCode.None? <==> forall i :: 0 <= i < |scans| ==> scans[i].exitCode.None?
    ensures SlotsOf(scans).exitCode.Some? ==>
      exists i :: 0 <= i < |scans| && scans[i].exitCode == SlotsOf(scans).exitCode
        && forall j :: i < j < |scans| ==> scans[j].exitCode.None?
    decreases |scans|
  {
    if scans != [] {
      var init := scans[..|scans| - 1];
      LastExitCode(init);
      assert forall i :: 0 <= i < |init| ==> init[i] == scans[i];
      if scans[|scans| - 1].exitCode.None? && SlotsOf(init).exitCode.Some? {
        var i :| 0 <= i < |init| && init[i].exitCode == SlotsOf(init).exitCode
          && forall j :: i < j < |init| ==> init[j].exitCode.None?;
        assert scans[i].exitCode == SlotsOf(scans).exitCode;
      }
    }
  }

  /** Likewise the recorded error text is that of the last first-line error line. */
  lemma {:induction false} LastErrorText(scans: seq<LineScan>)
    ensures SlotsOf(scans).errorText.None? <==> forall i :: 0 <= i < |scans| ==> scans[i].errorLine.None?
    ensures SlotsOf(scans).errorText.Some? ==>
      exists i :: 0 <= i < |scans| && scans[i].errorLine == SlotsOf(scans).errorText
        && forall j :: i < j < |scans| ==> scans[j].errorLine.None?
    decreases |scans|
  {
    if scans != [] {
      var init := scans[..|scans| - 1];
      LastErrorText(init);
      assert forall i :: 0 <= i < |init| ==> init[i] == scans[i];
      if scans[|scans| - 1].errorLine.None? && SlotsOf(init).errorText.Some? {
        var i :| 0 <= i < |init| && init[i].errorLine == SlotsOf(init).errorText
          && forall j :: i < j < |init| ==> init[j].errorLine.None?;
        assert scans[i].errorLine == SlotsOf(scans).errorText;
      }
    }
  }

  /**
   * The decision taken once the launcher has exited: failure exactly when
   * an exit code was recorded and it is not 0, reported with the recorded
   * error text or, without one, as an unknown error.
   */
  function Decision(slots: Slots): (r: Outcome)
    ensures r.Fail? <==> slots.exitCode.Some? && slots.exitCode.value != 0
    ensures r.Fail? && slots.errorText.Some? ==> r.msg == "Error while executing studio: " + slots.errorText.value
    ensures r.Fail? && slots.errorText.None? ==> r.msg == "Error while executing studio - unkown error."
  {
    if slots.exitCode.Some? && slots.exitCode.value != 0 then
      if slots.errorText.Some? then Fail("Error while executing studio: " + slots.errorText.value)
      else Fail("Error while executing studio - unkown error.")
    else Pass
  }

  /** The index of the last line carrying an exit code. */
  predicate LastExitAt(scans: seq<LineScan>, i: int) {
    0 <= i < |scans| && scans[i].exitCode.Some? && forall j :: i < j < |scans| ==> scans[j].exitCode.None?
  }

  /**
   * A launch fails exactly when the last exit-code line the launcher
   * printed carries a code other than 0; no exit-code line at all (a
   * launcher that died without one, say) counts as success.
   */
  lemma LaunchFailsIff(scans: seq<LineScan>)
    ensures Decision(SlotsOf(scans)).Fail? <==>
      exists i :: LastExitAt(scans, i) && scans[i].exitCode.value != 0
  {
    LastExitCode(scans);
    if SlotsOf(scans).exitCode.Some? {
      var i0 :| 0 <= i0 < |scans| && scans[i0].exitCode == SlotsOf(scans).exitCode
        && forall j :: i0 < j < |scans| ==> scans[j].exitCode.None?;
      assert LastExitAt(scans, i0);
      assert forall i :: LastExitAt(scans, i) ==> i == i0;
    }
  }
}
