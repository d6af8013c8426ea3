/**
 * The line-level rewrites that turn a Quantopian or Zipline script into one
 * pylivetrader can run: fixed headers put in front, stub callbacks put at
 * the end, import and commission lines filtered out, and blank lines
 * squeezed out at the end.
 */
module MigrationTool {
  import opened Wrappers
  import opened Strings

  const HandleDataDef := "def handle_data("
  const BeforeTradingStartDef := "def before_trading_start("

  /** The stub `handle_data` appended when the script has none. */
  const HandleDataStub := "\n" + HandleDataDef + "context, data):\n    pass\n"

  /** The stub `before_trading_start` appended when the script has none. */
  const BeforeTradingStartStub := "\n" + BeforeTradingStartDef + "context, data):\n    pass\n"

  const ApiImports := "\nfrom pylivetrader.api import *\n\r\n\n"

  const PipelineImports :=
    "\nfrom pipeline_live.data.alpaca.factors import AverageDollarVolume\n"
    + "from pipeline_live.data.alpaca.pricing import USEquityPricing\n"
    + "from pipeline_live.data.polygon.fundamentals import PolygonCompany\n"
    + "from zipline.pipeline import Pipeline\n"

  const LoggerSetup :=
    "\n\nfrom logbook import Logger, StreamHandler\nimport sys\n"
    + "StreamHandler(sys.stdout).push_application()\nlog = Logger(__name__)\n\n"

  const UnsupportedMessage := "Optimize is not supported in pylivetrader"

  /** `t` ends with `s`, and what comes before is `head`. */
  predicate Prepended(head: string, s: string, t: string)
  {
    |t| == |head| + |s| && t[..|head|] == head && t[|head|..] == s
  }

  /** `add_pylivetrader_imports`: the API import header in front of the code. */
  function AddPylivetraderImports(code: string): (r: string)
    ensures Prepended(ApiImports, code, r)
  {
    ApiImports + code
  }

  /** `add_pipelinelive_imports`: the pipeline imports in front, only for code that mentions a pipeline. */
  function AddPipelineliveImports(code: string): (r: string)
    ensures Contains(code, "pipeline") ==> Prepended(PipelineImports, code, r)
    ensures r == code <==> !Contains(code, "pipeline")
  {
    if Contains(code, "pipeline") then PipelineImports + code else code
  }

  /** `define_logger`: a console logger named `log` set up in front of the code. */
  function DefineLogger(code: string): (r: string)
    ensures Prepended(LoggerSetup, code, r)
  {
    LoggerSetup + code
  }

  /** A line that imports an optimizer. */
  predicate Unsupported(line: string)
  {
    Contains(line, "import") && Contains(line, "optimize")
  }

  /**
   * `check_for_unsupported_modules`: the exception's message when some line
   * imports an optimizer, and nothing otherwise.
   */
  method CheckForUnsupportedModules(code: string) returns (err: Option<string>)
    ensures err.Some? <==> exists j :: 0 <= j < |SplitLines(code)| && Unsupported(SplitLines(code)[j])
    ensures err.Some? ==> err.value == UnsupportedMessage
  {
    var lines := SplitLines(code);
    for i := 0 to |lines|
      invariant forall j :: 0 <= j < i ==> !Unsupported(lines[j])
    {
      if Unsupported(lines[i]) {
        assert lines[i] == SplitLines(code)[i];
        return Some(UnsupportedMessage);
      }
    }
    return None;
  }

  /** The stub text for `def`-prefix `d` occurs in the stub. */
  lemma StubDefines(d: string, rest: string)
    ensures Contains("\n" + d + rest, d)
  {
    assert StartsWith(d + rest, d);
    ContainsConcat("\n", d + rest, d);
    assert "\n" + d + rest == "\n" + (d + rest);
  }

  /**
   * `add_missing_base_methods`: a stub for each of `handle_data` and
   * `before_trading_start` the code does not define, appended in that order.
   */
  function AddMissingBaseMethods(code: string): (r: string)
    ensures Contains(r, HandleDataDef) && Contains(r, BeforeTradingStartDef)
    ensures |code| <= |r| && r[..|code|] == code
    ensures r == code <==> Contains(code, HandleDataDef) && Contains(code, BeforeTradingStartDef)
  {
    var withHandle := if Contains(code, HandleDataDef) then code else code + HandleDataStub;
    StubDefines(HandleDataDef, "context, data):\n    pass\n");
    StubDefines(BeforeTradingStartDef, "context, data):\n    pass\n");
    ContainsConcat(code, HandleDataStub, HandleDataDef);
    ContainsConcat(withHandle, BeforeTradingStartStub, HandleDataDef);
    ContainsConcat(withHandle, BeforeTradingStartStub, BeforeTradingStartDef);
    ContainsConcat(code, HandleDataStub, BeforeTradingStartDef);
    var r := if Contains(withHandle, BeforeTradingStartDef) then withHandle else withHandle + BeforeTradingStartStub;
    assert (code + HandleDataStub)[..|code|] == code;
    assert r[..|withHandle|] == withHandle;
    assert r[..|code|] == withHandle[..|code|];
    r
  }

  /** Adding the missing stubs a second time adds nothing. */
  lemma AddMissingBaseMethodsIdempotent(code: string)
    ensures AddMissingBaseMethods(AddMissingBaseMethods(code)) == AddMissingBaseMethods(code)
  {
    var once := AddMissingBaseMethods(code);
    assert Contains(once, HandleDataDef) && Contains(once, BeforeTradingStartDef);
  }

  /** The lines of `lines` for which `drop` fails, in their order. */
  function Keep(lines: seq<string>, drop: string -> bool): (kept: seq<string>)
    ensures |kept| <= |lines|
    ensures forall j :: 0 <= j < |kept| ==> !drop(kept[j])
    decreases |lines|
  {
    if |lines| == 0 then []
    else
      var rest := Keep(lines[..|lines| - 1], drop);
      if drop(lines[|lines| - 1]) then rest else rest + [lines[|lines| - 1]]
  }

  /** Filtering distributes over concatenation, so kept lines keep their relative order. */
  lemma {:induction false} KeepConcat(a: seq<string>, b: seq<string>, drop: string -> bool)
    ensures Keep(a + b, drop) == Keep(a, drop) + Keep(b, drop)
    decreases |b|
  {
    if |b| == 0 {
      assert a + b == a;
    } else {
      var b' := b[..|b| - 1];
      assert (a + b)[..|a + b| - 1] == a + b';
      KeepConcat(a, b', drop);
    }
  }

  /** Nothing is filtered out of lines none of which is dropped. */
  lemma {:induction false} KeepNothingDropped(lines: seq<string>, drop: string -> bool)
    requires forall j :: 0 <= j < |lines| ==> !drop(lines[j])
    ensures Keep(lines, drop) == lines
    decreases |lines|
  {
    if |lines| > 0 {
      KeepNothingDropped(lines[..|lines| - 1], drop);
    }
  }

  /** A line `remove_commission` drops. */
  predicate IsCommissionLine(line: string)
  {
    Contains(line, "set_commission") || Contains(line, "set_slippage")
  }

  /** `remove_commission`: the lines that set neither commission nor slippage, joined by CR LF. */
  method RemoveCommission(code: string) returns (r: string)
    ensures r == Join("\r\n", Keep(SplitLines(code), IsCommissionLine))
  {
    var lines := SplitLines(code);
    var result: seq<string> := [];
    for i := 0 to |lines|
      invariant result == Keep(lines[..i], IsCommissionLine)
    {
      assert lines[..i + 1][..i] == lines[..i];
      if !IsCommissionLine(lines[i]) {
        result := result + [lines[i]];
      }
    }
    assert lines[..|lines|] == lines;
    r := Join("\r\n", result);
  }

  /** An import line that goes on past a backslash. */
  predicate IsContinuedImport(line: string)
  {
    Contains(line, "import") && '\\' in line
  }

  /** An import line from Quantopian's own packages. */
  predicate IsQuantopianImport(line: string)
  {
    Contains(line, "import") && Contains(line, "quantopian")
  }

  /** The kept lines and the `skip_next_line` flag of `remove_quantopian_imports`' scan. */
  datatype ImportScan = ImportScan(kept: seq<string>, skip: bool)

  /** One line of the scan: a continued import starts skipping, which lasts through the first line without a backslash. */
  function ImportStep(st: ImportScan, line: string): (r: ImportScan)
    ensures r.kept == st.kept || r.kept == st.kept + [line]
    ensures r.kept != st.kept <==> !st.skip && !IsContinuedImport(line) && !IsQuantopianImport(line)
    ensures r.skip ==> '\\' in line
  {
    var skip := st.skip || IsContinuedImport(line);
    if skip then ImportScan(st.kept, '\\' in line)
    else if IsQuantopianImport(line) then st
    else ImportScan(st.kept + [line], false)
  }

  /** The scan over `lines`, from no lines kept and no skipping. */
  function ScanImports(lines: seq<string>): (st: ImportScan)
    ensures |st.kept| <= |lines|
    ensures forall j :: 0 <= j < |st.kept| ==> !IsContinuedImport(st.kept[j]) && !IsQuantopianImport(st.kept[j])
    decreases |lines|
  {
    if |lines| == 0 then ImportScan([], false)
    else ImportStep(ScanImports(lines[..|lines| - 1]), lines[|lines| - 1])
  }

  /** `remove_quantopian_imports`: the scan's kept lines joined by CR LF. */
  method RemoveQuantopianImports(code: string) returns (r: string)
    ensures r == Join("\r\n", ScanImports(SplitLines(code)).kept)
  {
    var lines := SplitLines(code);
    var result: seq<string> := [];
    var skipNextLine := false;
    for i := 0 to |lines|
      invariant ImportScan(result, skipNextLine) == ScanImports(lines[..i])
    {
      var line := lines[i];
      assert lines[..i + 1][..i] == lines[..i];
      if IsContinuedImport(line) {
        skipNextLine := true;
      }
      if skipNextLine {
        if '\\' !in line {
          skipNextLine := false;
        }
        continue;
      }
      if IsQuantopianImport(line) {
        continue;
      }
      result := result + [line];
    }
    assert lines[..|lines|] == lines;
    r := Join("\r\n", result);
  }

  /** Without any backslash the scan is a plain filter that drops the Quantopian imports. */
  lemma {:induction false} ScanWithoutBackslash(lines: seq<string>)
    requires forall j :: 0 <= j < |lines| ==> '\\' !in lines[j]
    ensures ScanImports(lines) == ImportScan(Keep(lines, IsQuantopianImport), false)
    decreases |lines|
  {
    if |lines| > 0 {
      ScanWithoutBackslash(lines[..|lines| - 1]);
    }
  }

  /**
   * A continued import, the continuation lines after it that end in a
   * backslash too, and the first line without one are all dropped, and the
   * scan is back to not skipping.
   */
  lemma {:induction false} ContinuationDropped(pre: seq<string>, imp: string, cont: seq<string>, last: string)
    requires IsContinuedImport(imp)
    requires forall j :: 0 <= j < |cont| ==> '\\' in cont[j]
    requires '\\' !in last
    ensures ScanImports(pre + [imp] + cont + [last]) == ImportScan(ScanImports(pre).kept, false)
  {
    SkipThrough(pre + [imp], cont);
    assert (pre + [imp] + cont + [last])[..|pre + [imp] + cont|] == pre + [imp] + cont;
    assert (pre + [imp])[..|pre|] == pre;
  }

  /** While the scan skips, lines that end in a backslash keep it skipping and are dropped. */
  lemma {:induction false} SkipThrough(pre: seq<string>, cont: seq<string>)
    requires |pre| > 0 && IsContinuedImport(pre[|pre| - 1])
    requires forall j :: 0 <= j < |cont| ==> '\\' in cont[j]
    ensures ScanImports(pre + cont) == ImportScan(ScanImports(pre[..|pre| - 1]).kept, true)
    decreases |cont|
  {
    if |cont| == 0 {
      assert pre + cont == pre;
    } else {
      var init := cont[..|cont| - 1];
      SkipThrough(pre, init);
      assert (pre + cont)[..|pre + cont| - 1] == pre + init;
    }
  }

  /** The three blank-line patterns `cleanup` squeezes. */
  predicate HasDoubleBreak(s: string)
  {
    Contains(s, "\n\n") || Contains(s, "\r\n\r\n") || Contains(s, "\n\r\n")
  }

  /**
   * `cleanup`: squeeze blank lines until none of the three patterns is left,
   * then turn CR LF into LF. Each pass shortens the text, so the loop ends.
   */
  method Cleanup(code: string) returns (r: string)
    ensures !Contains(r, "\n\n")
    ensures |r| <= |code|
  {
    var code1 := code;
    while HasDoubleBreak(code1)
      invariant |code1| <= |code|
      decreases |code1|
    {
      var before := code1;
      ReplaceAllShrinks(code1, "\n\n", "\n");
      code1 := ReplaceAll(code1, "\n\n", "\n");
      ReplaceAllShrinks(code1, "\r\n\r\n", "\r\n");
      code1 := ReplaceAll(code1, "\r\n\r\n", "\r\n");
      ReplaceAllShrinks(code1, "\n\r\n", "\r\n");
      code1 := ReplaceAll(code1, "\n\r\n", "\r\n");
    }
    ReplaceAllShrinks(code1, "\r\n", "\n");
    CollapseCrLf(code1);
    r := ReplaceAll(code1, "\r\n", "\n");
  }

  /** The replacement of CR LF by LF starts with LF exactly when the text starts with LF or with CR LF. */
  lemma CollapseHead(t: string)
    requires |t| > 0
    ensures var u := ReplaceAll(t, "\r\n", "\n");
      |u| > 0 && (u[0] == '\n' <==> t[0] == '\n' || StartsWith(t, "\r\n"))
  {
  }

  /** In text free of the three patterns, a CR LF is followed by neither LF nor CR LF. */
  lemma CrLfHead(s: string)
    requires !HasDoubleBreak(s) && |s| >= 3 && s[..2] == "\r\n"
    ensures s[2] != '\n' && !StartsWith(s[2..], "\r\n")
  {
    assert !StartsWith(s, "\r\n\r\n");
    assert !Contains(s[1..], "\n\n");
    assert !StartsWith(s[1..], "\n\n");
    assert s[1..][..2] == [s[1], s[2]];
  }

  /** Text free of the three patterns has no blank line once CR LF becomes LF. */
  lemma {:induction false} CollapseCrLf(s: string)
    requires !HasDoubleBreak(s)
    ensures !Contains(ReplaceAll(s, "\r\n", "\n"), "\n\n")
    decreases |s|
  {
    if |s| < 2 {
      NoRoomNoOccurrence(s, "\n\n");
    } else if s[..2] == "\r\n" {
      var t := s[2..];
      assert s == s[..2] + t;
      ContainsConcat(s[..2], t, "\n\n");
      ContainsConcat(s[..2], t, "\r\n\r\n");
      ContainsConcat(s[..2], t, "\n\r\n");
      CollapseCrLf(t);
      var u := ReplaceAll(t, "\r\n", "\n");
      assert ReplaceAll(s, "\r\n", "\n") == "\n" + u;
      assert ("\n" + u)[1..] == u;
      if |t| > 0 {
        CollapseHead(t);
        CrLfHead(s);
      } else {
        assert u == "";
      }
    } else {
      var t := s[1..];
      assert s == [s[0]] + t;
      ContainsConcat([s[0]], t, "\n\n");
      ContainsConcat([s[0]], t, "\r\n\r\n");
      ContainsConcat([s[0]], t, "\n\r\n");
      CollapseCrLf(t);
      var u := ReplaceAll(t, "\r\n", "\n");
      assert ReplaceAll(s, "\r\n", "\n") == [s[0]] + u;
      assert ([s[0]] + u)[1..] == u;
      CollapseHead(t);
    }
  }
}
