/**
 * The script-evaluation web worker: the tail-expression rewrite
 * `addJsonWrapper`, the step-budget hook with its two module-level counters,
 * `execute` with its `prompt` input queue, `evaluate`, and the two-phase reply
 * of `onmessage`.
 *
 * The interpreter is foreign. A script text denotes a guest program (given by
 * the parameter `interp`): the sequence of hook calls (`Tick`) and `prompt()`
 * calls it makes, and the completion it ends with as a function of the values
 * its prompts returned. `JSON.parse` is the parameter `parse`.
 */
module Engine262 {
  import opened Wrappers
  import opened JsValues
  import opened Text

  // ---------------------------------------------------------------------------
  // Tail-expression rewrite (addJsonWrapper)
  // ---------------------------------------------------------------------------

  /**
   * A trimmed script cut as the rewrite cuts it: the lines before the last
   * one, the `;`-pieces of the last line before its final piece, and that
   * final piece (the tail expression, comment not yet removed).
   */
  datatype TailSplit = TailSplit(lines: seq<string>, statements: seq<string>, expression: string)

  /** Putting a cut back together with the separators it was cut at. */
  function Glue(t: TailSplit): string
  {
    Join(t.lines + [Join(t.statements + [t.expression], ";")], "\n")
  }

  /** No piece of a cut contains the separator it was cut at. */
  predicate SeparatorFree(t: TailSplit)
  {
    (forall i :: 0 <= i < |t.lines| ==> '\n' !in t.lines[i])
    && (forall i :: 0 <= i < |t.statements| ==> '\n' !in t.statements[i] && ';' !in t.statements[i])
    && '\n' !in t.expression && ';' !in t.expression
  }

  /** A character of a joined string comes from one of the pieces or from the separator. */
  lemma {:induction false} CharOfJoin(parts: seq<string>, sep: string, c: char)
    requires c in Join(parts, sep)
    ensures c in sep || exists i :: 0 <= i < |parts| && c in parts[i]
  {
    if |parts| >= 2 {
      if c !in parts[0] && c !in sep {
        CharOfJoin(parts[1..], sep, c);
        var i :| 0 <= i < |parts[1..]| && c in parts[1..][i];
        assert c in parts[i + 1];
      }
    }
  }

  /** Every character of a piece is a character of the joined string. */
  lemma {:induction false} CharInJoin(parts: seq<string>, sep: string, i: nat, c: char)
    requires i < |parts| && c in parts[i]
    ensures c in Join(parts, sep)
  {
    if i > 0 {
      CharInJoin(parts[1..], sep, i - 1, c);
    }
  }

  /**
   * `lines.pop()` after `text.split('\n')`, then `split(';')` of that last
   * line and `statements.pop()`.
   */
  function CutLast(text: string): TailSplit
  {
    var lines := Split(text, '\n');
    var statements := Split(lines[|lines| - 1], ';');
    TailSplit(lines[..|lines| - 1], statements[..|statements| - 1], statements[|statements| - 1])
  }

  /** The cut puts back together to the text, and no piece holds its separator. */
  lemma CutLastGlues(text: string)
    ensures Glue(CutLast(text)) == text
    ensures SeparatorFree(CutLast(text))
  {
    CutLastJoins(text);
    CutLastPieces(text);
  }

  lemma CutLastJoins(text: string)
    ensures Glue(CutLast(text)) == text
  {
    var lines := Split(text, '\n');
    var statements := Split(lines[|lines| - 1], ';');
    assert CutLast(text)
      == TailSplit(lines[..|lines| - 1], statements[..|statements| - 1], statements[|statements| - 1]);
    SplitJoinsBack(text, '\n');
    SplitJoinsBack(lines[|lines| - 1], ';');
    GlueOfLastPieces(lines, statements);
  }

  /** Cutting the last piece off both lists and gluing them back gives the joined lines. */
  lemma GlueOfLastPieces(lines: seq<string>, statements: seq<string>)
    requires |lines| >= 1 && |statements| >= 1
    requires Join(statements, ";") == lines[|lines| - 1]
    ensures Glue(TailSplit(lines[..|lines| - 1], statements[..|statements| - 1], statements[|statements| - 1]))
      == Join(lines, "\n")
  {
    var n := |lines|;
    var m := |statements|;
    calc {
      Glue(TailSplit(lines[..n - 1], statements[..m - 1], statements[m - 1]));
      Join(lines[..n - 1] + [Join(statements[..m - 1] + [statements[m - 1]], ";")], "\n");
      { assert statements[..m - 1] + [statements[m - 1]] == statements; }
      Join(lines[..n - 1] + [lines[n - 1]], "\n");
      { assert lines[..n - 1] + [lines[n - 1]] == lines; }
      Join(lines, "\n");
    }
  }

  lemma CutLastPieces(text: string)
    ensures SeparatorFree(CutLast(text))
  {
    var lines := Split(text, '\n');
    var lastLine := lines[|lines| - 1];
    var statements := Split(lastLine, ';');
    SplitPiecesFree(text, '\n');
    SplitPiecesFree(lastLine, ';');
    SplitJoinsBack(lastLine, ';');
    forall i | 0 <= i < |statements| ensures '\n' !in statements[i] {
      if '\n' in statements[i] {
        CharInJoin(statements, [';'], i, '\n');
      }
    }
  }

  /** The cut the rewrite makes: that of the trimmed script. */
  function SplitTail(script: string): TailSplit
  {
    CutLast(Trim(script))
  }

  /** The rewrite's cut glues back to the trimmed script, and no piece holds its separator. */
  lemma SplitTailGlues(script: string)
    ensures Glue(SplitTail(script)) == Trim(script)
    ensures SeparatorFree(SplitTail(script))
  {
    CutLastGlues(Trim(script));
  }

  /** There is only one separator-free cut of a trimmed script: SplitTail's. */
  lemma SplitTailUnique(script: string, t: TailSplit)
    requires Glue(t) == Trim(script)
    requires SeparatorFree(t)
    ensures t == SplitTail(script)
  {
    CutOfGlue(t);
  }

  /** Cutting a glued separator-free cut gives the cut back. */
  lemma CutOfGlue(t: TailSplit)
    requires SeparatorFree(t)
    ensures CutLast(Glue(t)) == t
  {
    var pieces := t.statements + [t.expression];
    var lastLine := Join(pieces, ";");
    var lines := t.lines + [lastLine];
    LastLineFree(t);
    assert forall i :: 0 <= i < |lines| ==> '\n' !in lines[i];
    assert forall i :: 0 <= i < |pieces| ==> ';' !in pieces[i];
    SplitJoin(lines, '\n');
    SplitJoin(pieces, ';');
    assert lines[..|lines| - 1] == t.lines;
    assert pieces[..|pieces| - 1] == t.statements;
  }

  /** The glued last line of a separator-free cut holds no newline. */
  lemma LastLineFree(t: TailSplit)
    requires SeparatorFree(t)
    ensures '\n' !in Join(t.statements + [t.expression], ";")
  {
    var pieces := t.statements + [t.expression];
    assert forall i :: 0 <= i < |pieces| ==> '\n' !in pieces[i];
    if '\n' in Join(pieces, ";") {
      CharOfJoin(pieces, ";", '\n');
    }
  }

  /** The value expression made from a tail piece: its `//` comments removed, then right-trimmed. */
  function CleanExpression(piece: string): string
  {
    TrimEnd(StripLineComments(piece))
  }

  /** A cleaned expression holds no `//` and does not end in whitespace. */
  lemma CleanExpressionFacts(piece: string)
    ensures var r := CleanExpression(piece);
      (forall i :: 0 <= i < |r| - 1 ==> !(r[i] == '/' && r[i + 1] == '/'))
      && (r == [] || !IsWhitespace(r[|r| - 1]))
  {
    var stripped := StripLineComments(piece);
    StripLineCommentsFacts(piece);
    TrimEndPrefix(stripped);
    var r := TrimEnd(stripped);
    assert forall i :: 0 <= i < |r| ==> r[i] == stripped[i];
  }

  /** The value expression of a script. */
  function TailExpression(script: string): string
  {
    CleanExpression(SplitTail(script).expression)
  }

  /** The statement the rewrite appends. */
  function StringifyCall(expression: string): string
  {
    "\nJSON.stringify(" + expression + ")"
  }

  /**
   * The text the rewrite emits for a cut: the earlier lines joined by a
   * newline, then, with no separator in between, the other statements of the
   * last line joined by `;`, then a new line serialising the tail expression
   * with its comment removed and right-trimmed.
   */
  function Reassemble(t: TailSplit): string
  {
    Join(t.lines, "\n") + Join(t.statements, ";") + StringifyCall(CleanExpression(t.expression))
  }

  /** `addJsonWrapper(script)`. */
  function AddJsonWrapper(script: string): string
  {
    Reassemble(SplitTail(script))
  }

  /** Every rewrite ends by serialising the script's value expression. */
  lemma AddJsonWrapperEndsWithCall(script: string)
    ensures var call := StringifyCall(TailExpression(script));
      var wrapped := AddJsonWrapper(script);
      |call| <= |wrapped| && wrapped[|wrapped| - |call|..] == call
  {
  }

  /**
   * The rewrite in terms of any separator-free cut of the trimmed script:
   * the newline before the last line and the `;` before the tail expression
   * are dropped, and the tail expression is wrapped in `JSON.stringify`.
   */
  lemma AddJsonWrapperOfCut(script: string, t: TailSplit)
    requires Glue(t) == Trim(script)
    requires SeparatorFree(t)
    ensures AddJsonWrapper(script) == Reassemble(t)
  {
    SplitTailUnique(script, t);
  }

  /** A cut with no other statements on the last line glues back to the joined lines. */
  lemma GlueSingleStatement(earlier: seq<string>, expression: string)
    ensures Glue(TailSplit(earlier, [], expression)) == Join(earlier + [expression], "\n")
  {
    var t := TailSplit(earlier, [], expression);
    assert t.statements + [t.expression] == [expression];
  }

  /** With no other statements, nothing comes between the earlier lines and the serialising call. */
  lemma ReassembleSingleStatement(earlier: seq<string>, expression: string)
    ensures Reassemble(TailSplit(earlier, [], expression))
      == Join(earlier, "\n") + StringifyCall(CleanExpression(expression))
  {
    assert Join([], ";") == "";
    assert Join(earlier, "\n") + "" == Join(earlier, "\n");
  }

  /**
   * A last line without `;`: the rewrite is exactly the earlier lines
   * followed by the serialised last line.
   */
  lemma AddJsonWrapperSingleStatement(earlier: seq<string>, expression: string)
    requires forall i :: 0 <= i < |earlier| ==> '\n' !in earlier[i]
    requires '\n' !in expression && ';' !in expression
    requires Trim(Join(earlier + [expression], "\n")) == Join(earlier + [expression], "\n")
    ensures AddJsonWrapper(Join(earlier + [expression], "\n"))
      == Join(earlier, "\n") + StringifyCall(CleanExpression(expression))
  {
    var t := TailSplit(earlier, [], expression);
    GlueSingleStatement(earlier, expression);
    AddJsonWrapperOfCut(Join(earlier + [expression], "\n"), t);
    ReassembleSingleStatement(earlier, expression);
  }

  /** A script whose trimmed text ends in `;` has an empty tail expression. */
  lemma TrailingSemicolonEmptyTail(script: string)
    requires Trim(script) != [] && Trim(script)[|Trim(script)| - 1] == ';'
    ensures TailExpression(script) == ""
  {
    var t := SplitTail(script);
    SplitTailGlues(script);
    var lastLine := Join(t.statements + [t.expression], ";");
    JoinSnoc(t.lines, lastLine, "\n");
    JoinSnoc(t.statements, t.expression, ";");
    assert t.expression == "";
  }

  /** The cut of `"a\nb; c"`. */
  lemma CutOfJoinExample()
    ensures Glue(TailSplit(["a"], ["b"], " c")) == "a\nb; c"
  {
    var t := TailSplit(["a"], ["b"], " c");
    assert t.statements + [t.expression] == ["b", " c"];
    assert ["b", " c"][1..] == [" c"];
    assert Join(["b", " c"], ";") == "b" + ";" + " c";
    assert "b" + ";" + " c" == "b; c";
    assert t.lines + ["b; c"] == ["a", "b; c"];
    assert ["a", "b; c"][1..] == ["b; c"];
    assert Join(["a", "b; c"], "\n") == "a" + "\n" + "b; c";
  }

  /** What the rewrite emits for the cut of `"a\nb; c"`. */
  lemma ReassembleJoinExample(t: TailSplit)
    requires t == TailSplit(["a"], ["b"], " c")
    ensures Reassemble(t) == "ab" + StringifyCall(" c")
  {
    assert CleanExpression(" c") == " c";
    assert Join(t.lines, "\n") + Join(t.statements, ";") == "ab";
  }

  /**
   * Earlier lines run straight into the remaining statements of the last
   * line: `"a\nb; c"` becomes `"ab\nJSON.stringify( c)"`.
   */
  lemma AddJsonWrapperJoinsLines(script: string)
    requires script == "a\nb; c"
    ensures AddJsonWrapper(script) == "ab" + StringifyCall(" c")
  {
    var t := TailSplit(["a"], ["b"], " c");
    TrimOfTrimmed(script);
    CutOfJoinExample();
    AddJsonWrapperOfCut(script, t);
    ReassembleJoinExample(t);
  }

  // ---------------------------------------------------------------------------
  // Guest programs and the step hook, as a specification
  // ---------------------------------------------------------------------------

  /** The default step budget of `evaluate`. */
  const DefaultThreshold: int := 1_000_000

  /** What the hook throws once the budget is used up. */
  const ThresholdExceeded: Value := Error("Threshold exceeded")

  /** What `evaluate` throws for a non-positive budget. */
  const ThresholdNotPositive: string := "Threshold must be greater than 0"

  /** One unit of guest work: a call of the node-evaluation hook, or a `prompt()` call. */
  datatype Action = Tick | Prompt

  /** The completion record of a script: a normal value or a thrown one. */
  datatype Completion = Normal(value: Value) | Throw(error: Value)

  /** A guest program: its work, and its completion given the values its prompts returned. */
  datatype Guest = Guest(actions: seq<Action>, finish: seq<Value> -> Completion)

  /** The state one execution touches: the two counters, the input queue, the values read so far. */
  datatype Machine = Machine(tickCounter: int, thresholdChecker: int, queue: seq<string>, read: seq<Value>)

  /** An execution so far: still running, or stopped by a host exception. */
  datatype Progress = Running(m: Machine) | Halted(m: Machine, error: Value)

  /**
   * What `prompt()` does once its queue is empty. The builtin returns
   * `Value(inputs.shift()!)`, so the engine's `Value` wrapper receives
   * `undefined`; what that wrapper does with it belongs to the engine, not to
   * the worker. Either the script is handed some value and goes on, or a
   * host exception leaves the realm.
   */
  datatype Exhausted = Yields(value: Value) | Faults(error: Value)

  /** The value an empty-queue `prompt()` hands the script, where it hands one. */
  function Filler(x: Exhausted): Value
  {
    if x.Yields? then x.value else Undefined
  }

  /** Whether n `prompt()` calls from the queue q all return: the queue holds enough, or an empty queue still yields. */
  predicate Serves(x: Exhausted, q: seq<string>, n: nat)
  {
    x.Yields? || n <= |q|
  }

  function Min(a: int, b: int): int
  {
    if a <= b then a else b
  }

  /**
   * What n returning `prompt()` calls hand the script from the queue q: its
   * strings in order, then `fill` once it is empty.
   */
  function PromptValues(q: seq<string>, n: nat, fill: Value): (r: seq<Value>)
    ensures |r| == n
  {
    seq(n, i requires 0 <= i < n => if i < |q| then Str(q[i]) else fill)
  }

  /**
   * One action: a hook call counts a tick, decrements the checker and throws
   * when the checker was negative before the decrement; a prompt shifts the
   * head of the queue, and on an empty queue does what `x` says.
   */
  function Apply(a: Action, m: Machine, x: Exhausted): Progress
  {
    match a
    case Tick =>
      var next := m.(tickCounter := m.tickCounter + 1, thresholdChecker := m.thresholdChecker - 1);
      if m.thresholdChecker < 0 then Halted(next, ThresholdExceeded) else Running(next)
    case Prompt =>
      if m.queue != [] then Running(m.(queue := m.queue[1..], read := m.read + [Str(m.queue[0])]))
      else
        match x
        case Yields(v) => Running(m.(read := m.read + [v]))
        case Faults(e) => Halted(m, e)
  }

  /** Running a sequence of actions from a state, stopping at the first host exception. */
  function Run(actions: seq<Action>, m: Machine, x: Exhausted): Progress
    decreases |actions|
  {
    if actions == [] then Running(m)
    else
      match Run(actions[..|actions| - 1], m, x)
      case Halted(h, e) => Halted(h, e)
      case Running(r) => Apply(actions[|actions| - 1], r, x)
  }

  /** The number of hook calls in a sequence of actions. */
  function Ticks(actions: seq<Action>): nat
    decreases |actions|
  {
    if actions == [] then 0
    else Ticks(actions[..|actions| - 1]) + (if actions[|actions| - 1] == Tick then 1 else 0)
  }

  /** The number of `prompt()` calls in a sequence of actions. */
  function Prompts(actions: seq<Action>): nat
    decreases |actions|
  {
    if actions == [] then 0
    else Prompts(actions[..|actions| - 1]) + (if actions[|actions| - 1] == Prompt then 1 else 0)
  }

  /** Once an execution has stopped, the actions after that point change nothing. */
  lemma {:induction false} RunHaltedStays(actions: seq<Action>, k: nat, m: Machine, x: Exhausted)
    requires k <= |actions|
    requires Run(actions[..k], m, x).Halted?
    ensures Run(actions, m, x) == Run(actions[..k], m, x)
    decreases |actions| - k
  {
    if k < |actions| {
      assert actions[..k + 1][..k] == actions[..k];
      RunHaltedStays(actions, k + 1, m, x);
    } else {
      assert actions[..k] == actions;
    }
  }

  /** The two counters move in lockstep: every hook call adds one to one and takes one from the other. */
  lemma {:induction false} RunKeepsSum(actions: seq<Action>, m: Machine, x: Exhausted)
    ensures Run(actions, m, x).m.tickCounter + Run(actions, m, x).m.thresholdChecker
            == m.tickCounter + m.thresholdChecker
    decreases |actions|
  {
    if actions != [] {
      RunKeepsSum(actions[..|actions| - 1], m, x);
    }
  }

  /**
   * Closed form of a run with a non-negative checker c: it completes iff it
   * makes at most c + 1 hook calls and every prompt returns. A completed run
   * has counted every hook call, and its prompts returned the queue's strings
   * in order and then the filler. A stopped run was stopped by the hook or by
   * an empty-queue fault, after at most c + 2 counted calls; if every prompt
   * could return it was the hook, after exactly c + 2 calls; if it stayed
   * within c + 1 calls it was the fault.
   */
  ghost predicate ClosedForm(actions: seq<Action>, m: Machine, x: Exhausted)
  {
    var p := Run(actions, m, x);
    var T := Ticks(actions);
    var P := Prompts(actions);
    (p.Running? <==> T <= m.thresholdChecker + 1 && Serves(x, m.queue, P))
    && (p.Running? ==>
          p.m == Machine(m.tickCounter + T, m.thresholdChecker - T,
                         m.queue[Min(P, |m.queue|)..],
                         m.read + PromptValues(m.queue, P, Filler(x))))
    && (p.Halted? ==>
          (p.error == ThresholdExceeded || (x.Faults? && p.error == x.error))
          && m.tickCounter <= p.m.tickCounter <= m.tickCounter + m.thresholdChecker + 2)
    && (p.Halted? && Serves(x, m.queue, P) ==>
          p.error == ThresholdExceeded && p.m.tickCounter == m.tickCounter + m.thresholdChecker + 2)
    && (p.Halted? && T <= m.thresholdChecker + 1 ==>
          x.Faults? && p.error == x.error && m.tickCounter <= p.m.tickCounter <= m.tickCounter + T)
  }

  /** Every run from a non-negative checker has the closed form. */
  lemma {:induction false} RunClosedForm(actions: seq<Action>, m: Machine, x: Exhausted)
    requires m.thresholdChecker >= 0
    ensures ClosedForm(actions, m, x)
    decreases |actions|
  {
    if actions != [] {
      var pre := actions[..|actions| - 1];
      RunClosedForm(pre, m, x);
      if Run(pre, m, x).Halted? {
        ClosedFormAfterHalt(actions, m, x);
      } else if actions[|actions| - 1] == Tick {
        ClosedFormAfterTick(actions, m, x);
      } else {
        ClosedFormAfterPrompt(actions, m, x);
      }
    }
  }

  lemma ClosedFormAfterHalt(actions: seq<Action>, m: Machine, x: Exhausted)
    requires actions != [] && m.thresholdChecker >= 0
    requires ClosedForm(actions[..|actions| - 1], m, x) && Run(actions[..|actions| - 1], m, x).Halted?
    ensures ClosedForm(actions, m, x)
  {
  }

  lemma ClosedFormAfterTick(actions: seq<Action>, m: Machine, x: Exhausted)
    requires actions != [] && m.thresholdChecker >= 0 && actions[|actions| - 1] == Tick
    requires ClosedForm(actions[..|actions| - 1], m, x) && Run(actions[..|actions| - 1], m, x).Running?
    ensures ClosedForm(actions, m, x)
  {
  }

  lemma ClosedFormAfterPrompt(actions: seq<Action>, m: Machine, x: Exhausted)
    requires actions != [] && m.thresholdChecker >= 0 && actions[|actions| - 1] == Prompt
    requires ClosedForm(actions[..|actions| - 1], m, x) && Run(actions[..|actions| - 1], m, x).Running?
    ensures ClosedForm(actions, m, x)
  {
    var n := Prompts(actions[..|actions| - 1]);
    if n < |m.queue| {
      assert m.queue[n..][1..] == m.queue[n + 1..];
      assert PromptValues(m.queue, n + 1, Filler(x)) == PromptValues(m.queue, n, Filler(x)) + [Str(m.queue[n])];
    } else if x.Yields? {
      assert PromptValues(m.queue, n + 1, Filler(x)) == PromptValues(m.queue, n, Filler(x)) + [x.value];
    }
  }

  /** Steps of a guest program counted after a reset to `threshold`: a run of n hook calls completes iff n <= threshold + 1. */
  lemma HookAbortsOnCall(threshold: int, n: nat, x: Exhausted)
    requires threshold > 0
    ensures var p := Run(seq(n, _ => Tick), Machine(0, threshold, [], []), x);
      (p.Running? <==> n <= threshold + 1)
      && (p.Running? ==> p.m.tickCounter == n)
      && (p.Halted? ==> p.error == ThresholdExceeded && p.m.tickCounter == threshold + 2)
  {
    var actions: seq<Action> := seq(n, _ => Tick);
    TicksOfTicks(n);
    RunClosedForm(actions, Machine(0, threshold, [], []), x);
  }

  lemma {:induction false} TicksOfTicks(n: nat)
    ensures Ticks(seq(n, _ => Tick)) == n && Prompts(seq(n, _ => Tick)) == 0
  {
    if n > 0 {
      var s: seq<Action> := seq(n, _ => Tick);
      assert s[..n - 1] == seq(n - 1, _ => Tick);
      TicksOfTicks(n - 1);
    }
  }

  /**
   * `prompt()` is first-in first-out: k calls from a queue q return q's
   * strings in order and then the filler, and leave what they did not take;
   * when the queue runs out and the engine faults, the run stops with that
   * fault and no tick counted.
   */
  lemma PromptsReadInOrder(q: seq<string>, k: nat, ticks: int, checker: int, x: Exhausted)
    requires checker >= 0
    ensures Serves(x, q, k) ==>
      Run(seq(k, _ => Prompt), Machine(ticks, checker, q, []), x)
        == Running(Machine(ticks, checker, q[Min(k, |q|)..], PromptValues(q, k, Filler(x))))
    ensures !Serves(x, q, k) ==>
      var p := Run(seq(k, _ => Prompt), Machine(ticks, checker, q, []), x);
      p.Halted? && p.error == x.error && p.m.tickCounter == ticks
  {
    TicksOfPrompts(k);
    RunClosedForm(seq(k, _ => Prompt), Machine(ticks, checker, q, []), x);
  }

  lemma {:induction false} TicksOfPrompts(k: nat)
    ensures Ticks(seq(k, _ => Prompt)) == 0 && Prompts(seq(k, _ => Prompt)) == k
  {
    if k > 0 {
      var s: seq<Action> := seq(k, _ => Prompt);
      assert s[..k - 1] == seq(k - 1, _ => Prompt);
      TicksOfPrompts(k - 1);
    }
  }

  // ---------------------------------------------------------------------------
  // evaluate and onmessage, as a specification
  // ---------------------------------------------------------------------------

  /** The `{ result, ticks, error }` record `evaluate` returns and the worker posts. */
  datatype Report = Report(result: Value, ticks: int, error: Value)

  /** The text a phase runs: the script itself when measuring, its rewrite when extracting. */
  function PhaseText(script: string, measureTicks: bool): string
  {
    if measureTicks then script else AddJsonWrapper(script)
  }

  /**
   * `evaluate(script, inputs, measureTicks, threshold)` for a positive
   * threshold, starting from reset counters. Only an extraction whose run
   * completed normally and whose value parsed has a result.
   */
  function Evaluation(script: string, inputs: seq<string>, measureTicks: bool, threshold: int,
                      interp: string -> Guest, parse: Value -> Completion, x: Exhausted): (r: Report)
    requires threshold > 0
    ensures measureTicks ==> r.result == Undefined
    ensures r.result != Undefined ==> r.error == Undefined
    ensures 0 <= r.ticks <= threshold + 2
  {
    var g := interp(PhaseText(script, measureTicks));
    var m0 := Machine(0, threshold, inputs, []);
    RunClosedForm(g.actions, m0, x);
    Conclude(Run(g.actions, m0, x), g.finish, measureTicks, parse)
  }

  /**
   * The `try`/`catch` of `evaluate`: a host exception or a thrown completion
   * becomes the error; a normal completion is parsed only when extracting,
   * and a failing parse becomes the error.
   */
  function Conclude(p: Progress, finish: seq<Value> -> Completion, measureTicks: bool,
                    parse: Value -> Completion): (r: Report)
    ensures r.ticks == p.m.tickCounter
    ensures measureTicks ==> r.result == Undefined
    ensures p.Halted? ==> r == Report(Undefined, p.m.tickCounter, p.error)
    ensures r.result != Undefined ==>
      r.error == Undefined && p.Running? && !measureTicks && finish(p.m.read).Normal?
      && parse(finish(p.m.read).value) == Normal(r.result)
    ensures p.Running? && !measureTicks && finish(p.m.read).Normal? && parse(finish(p.m.read).value).Throw? ==>
      r == Report(Undefined, p.m.tickCounter, parse(finish(p.m.read).value).error)
  {
    match p
    case Halted(m, e) => Report(Undefined, m.tickCounter, e)
    case Running(m) =>
      match finish(m.read)
      case Throw(e) => Report(Undefined, m.tickCounter, e)
      case Normal(v) =>
        if measureTicks then Report(Undefined, m.tickCounter, Undefined)
        else
          match parse(v)
          case Normal(x) => Report(x, m.tickCounter, Undefined)
          case Throw(e) => Report(Undefined, m.tickCounter, e)
  }

  /**
   * A phase in terms of its program. Within the budget, with every prompt
   * returning, it counts every hook call, and its report is the program's
   * throw, nothing when measuring, the parse failure, or the parsed value.
   * Past the budget it reports `threshold + 2` ticks and the hook's error.
   * A prompt that faults within the budget reports the fault and no result.
   */
  lemma EvaluationBudget(script: string, inputs: seq<string>, measureTicks: bool, threshold: int,
                         interp: string -> Guest, parse: Value -> Completion, x: Exhausted)
    requires threshold > 0
    ensures var g := interp(PhaseText(script, measureTicks));
      var r := Evaluation(script, inputs, measureTicks, threshold, interp, parse, x);
      var n := Ticks(g.actions);
      var served := Serves(x, inputs, Prompts(g.actions));
      var c := g.finish(PromptValues(inputs, Prompts(g.actions), Filler(x)));
      (n <= threshold + 1 && served ==>
         r == (if c.Throw? then Report(Undefined, n, c.error)
               else if measureTicks then Report(Undefined, n, Undefined)
               else if parse(c.value).Throw? then Report(Undefined, n, parse(c.value).error)
               else Report(parse(c.value).value, n, Undefined)))
      && (n > threshold + 1 && served ==> r == Report(Undefined, threshold + 2, ThresholdExceeded))
      && (n <= threshold + 1 && !served ==>
            x.Faults? && r == Report(Undefined, r.ticks, x.error) && r.ticks <= n)
  {
    var g := interp(PhaseText(script, measureTicks));
    var m0 := Machine(0, threshold, inputs, []);
    RunClosedForm(g.actions, m0, x);
    if Ticks(g.actions) <= threshold + 1 && Serves(x, inputs, Prompts(g.actions)) {
      assert Run(g.actions, m0, x).m.read == PromptValues(inputs, Prompts(g.actions), Filler(x));
    }
  }

  /**
   * `onmessage`: phase 1 measures; if it reports an error, phase 2 is not
   * run; otherwise phase 2 extracts with its own copy of the inputs. Ticks
   * always come from phase 1, the error is `error1 || error2`.
   */
  function Respond(script: string, inputs: seq<string>,
                   interp: string -> Guest, parse: Value -> Completion, x: Exhausted): (reply: Report)
  {
    var phase1 := Evaluation(script, inputs, true, DefaultThreshold, interp, parse, x);
    if Truthy(phase1.error) then
      Report(Undefined, phase1.ticks, phase1.error)
    else
      var phase2 := Evaluation(script, inputs, false, DefaultThreshold, interp, parse, x);
      Report(phase2.result, phase1.ticks, if Truthy(phase1.error) then phase1.error else phase2.error)
  }

  /**
   * A program over the default budget gets no value: with every prompt
   * returning it gets the hook's error, and the rewrite is never run; a
   * truthy fault of an empty-queue prompt may stop it first.
   */
  lemma RespondOverBudget(script: string, inputs: seq<string>,
                          interp: string -> Guest, parse: Value -> Completion, x: Exhausted)
    requires Ticks(interp(script).actions) > DefaultThreshold + 1
    ensures Serves(x, inputs, Prompts(interp(script).actions)) ==>
      Respond(script, inputs, interp, parse, x) == Report(Undefined, DefaultThreshold + 2, ThresholdExceeded)
    ensures x.Yields? || Truthy(x.error) ==>
      var reply := Respond(script, inputs, interp, parse, x);
      reply.result == Undefined && (reply.error == ThresholdExceeded || (x.Faults? && reply.error == x.error))
  {
    EvaluationBudget(script, inputs, true, DefaultThreshold, interp, parse, x);
    RunClosedForm(interp(script).actions, Machine(0, DefaultThreshold, inputs, []), x);
  }

  /**
   * A program that asks for more inputs than it was given, within the
   * budget, on an engine whose empty-queue `prompt()` throws a truthy
   * error: the reply is that error, no value, and no more ticks than the
   * program's hook calls.
   */
  lemma RespondExhausted(script: string, inputs: seq<string>,
                         interp: string -> Guest, parse: Value -> Completion, x: Exhausted)
    requires x.Faults? && Truthy(x.error)
    requires Ticks(interp(script).actions) <= DefaultThreshold + 1
    requires Prompts(interp(script).actions) > |inputs|
    ensures var reply := Respond(script, inputs, interp, parse, x);
      reply.result == Undefined && reply.error == x.error && reply.ticks <= Ticks(interp(script).actions)
  {
    EvaluationBudget(script, inputs, true, DefaultThreshold, interp, parse, x);
  }

  /**
   * When the script runs to a normal end within the budget and its rewrite
   * runs to a normal end whose value parses, the reply carries that value,
   * the script's own tick count and no error. Both phases read the inputs
   * from the start: phase 1's reads do not consume phase 2's.
   */
  lemma RespondExtracts(script: string, inputs: seq<string>,
                        interp: string -> Guest, parse: Value -> Completion, x: Exhausted,
                        text: Value, value: Value)
    requires var g := interp(script);
      Ticks(g.actions) <= DefaultThreshold + 1 && Serves(x, inputs, Prompts(g.actions))
      && g.finish(PromptValues(inputs, Prompts(g.actions), Filler(x))).Normal?
    requires var w := interp(AddJsonWrapper(script));
      Ticks(w.actions) <= DefaultThreshold + 1 && Serves(x, inputs, Prompts(w.actions))
      && w.finish(PromptValues(inputs, Prompts(w.actions), Filler(x))) == Normal(text)
    requires parse(text) == Normal(value)
    ensures Respond(script, inputs, interp, parse, x) == Report(value, Ticks(interp(script).actions), Undefined)
  {
    EvaluationBudget(script, inputs, true, DefaultThreshold, interp, parse, x);
    EvaluationBudget(script, inputs, false, DefaultThreshold, interp, parse, x);
  }

  // ---------------------------------------------------------------------------
  // The worker's state, imperatively
  // ---------------------------------------------------------------------------

  /** The `inputs` array a realm's `prompt` builtin shifts from. */
  class InputQueue {
    var items: seq<string>

    /** A `structuredClone` of the message's inputs. */
    constructor (items: seq<string>)
      ensures this.items == items
    {
      this.items := items;
    }

    /** `inputs.shift()`: the head, removed; nothing when empty. */
    method Shift() returns (head: Option<string>)
      modifies this
      ensures old(items) == [] ==> head == None && items == []
      ensures old(items) != [] ==> head == Some(old(items)[0]) && items == old(items)[1..]
    {
      if items == [] {
        head := None;
      } else {
        head := Some(items[0]);
        items := items[1..];
      }
    }
  }

  /** What `execute` hands back: the script's completion, or a host exception that escaped it. */
  datatype Raw = Completed(completion: Completion) | HostError(error: Value)

  /** The worker module's counters `tickCounter` and `thresholdChecker`. */
  class Worker {
    var tickCounter: int
    var thresholdChecker: int

    constructor ()
      ensures tickCounter == 0 && thresholdChecker == 0
    {
      tickCounter := 0;
      thresholdChecker := 0;
    }

    /** The `onNodeEvaluation` hook: count, decrement, and throw if the checker was already negative. */
    method OnNodeEvaluation() returns (thrown: Option<Value>)
      modifies this
      ensures tickCounter == old(tickCounter) + 1
      ensures thresholdChecker == old(thresholdChecker) - 1
      ensures thrown == if old(thresholdChecker) < 0 then Some(ThresholdExceeded) else None
    {
      tickCounter := tickCounter + 1;
      var before := thresholdChecker;
      thresholdChecker := thresholdChecker - 1;
      if before < 0 {
        thrown := Some(ThresholdExceeded);
      } else {
        thrown := None;
      }
    }

    /** `execute(script, inputs)`: run the guest, calling the hook and serving prompts from the queue. */
    method Execute(g: Guest, queue: InputQueue, x: Exhausted) returns (raw: Raw)
      modifies this, queue
      ensures var p := Run(g.actions, Machine(old(tickCounter), old(thresholdChecker), old(queue.items), []), x);
        tickCounter == p.m.tickCounter && thresholdChecker == p.m.thresholdChecker && queue.items == p.m.queue
        && raw == (match p case Running(m) => Completed(g.finish(m.read)) case Halted(_, e) => HostError(e))
    {
      ghost var m0 := Machine(tickCounter, thresholdChecker, queue.items, []);
      var read: seq<Value> := [];
      var i := 0;
      while i < |g.actions|
        invariant 0 <= i <= |g.actions|
        invariant Run(g.actions[..i], m0, x) == Running(Machine(tickCounter, thresholdChecker, queue.items, read))
      {
        assert g.actions[..i + 1][..i] == g.actions[..i];
        match g.actions[i] {
          case Tick =>
            var thrown := OnNodeEvaluation();
            if thrown.Some? {
              RunHaltedStays(g.actions, i + 1, m0, x);
              return HostError(thrown.value);
            }
          case Prompt =>
            var head := queue.Shift();
            match head {
              case Some(s) =>
                read := read + [Str(s)];
              case None =>
                match x {
                  case Yields(v) =>
                    read := read + [v];
                  case Faults(e) =>
                    RunHaltedStays(g.actions, i + 1, m0, x);
                    return HostError(e);
                }
            }
        }
        i := i + 1;
      }
      assert g.actions[..i] == g.actions;
      raw := Completed(g.finish(read));
    }

    /**
     * `evaluate(script, inputs, measureTicks, threshold)`: reject a
     * non-positive threshold before touching anything; otherwise reset the
     * counters, run the script (rewritten when extracting) and turn the
     * outcome into a report. The report does not depend on earlier calls,
     * and the checker has spent exactly the ticks reported.
     */
    method Evaluate(script: string, inputs: InputQueue, measureTicks: bool, threshold: int,
                    interp: string -> Guest, parse: Value -> Completion, x: Exhausted)
      returns (r: Result<Report, string>)
      modifies this, inputs
      ensures threshold <= 0 ==>
        r == Err(ThresholdNotPositive) && tickCounter == old(tickCounter)
        && thresholdChecker == old(thresholdChecker) && inputs.items == old(inputs.items)
      ensures threshold > 0 ==>
        r == Ok(Evaluation(script, old(inputs.items), measureTicks, threshold, interp, parse, x))
        && tickCounter == r.value.ticks && thresholdChecker == threshold - r.value.ticks
        && inputs.items == Run(interp(PhaseText(script, measureTicks)).actions,
                               Machine(0, threshold, old(inputs.items), []), x).m.queue
    {
      if threshold <= 0 {
        return Err(ThresholdNotPositive);
      }
      tickCounter := 0;
      thresholdChecker := threshold;
      var ticksAtStart := tickCounter;
      var text := script;
      if !measureTicks {
        text := AddJsonWrapper(text);
      }
      var result := Undefined;
      var error := Undefined;
      RunKeepsSum(interp(text).actions, Machine(0, threshold, inputs.items, []), x);
      var raw := Execute(interp(text), inputs, x);
      match raw {
        case HostError(e) =>
          error := e;
        case Completed(Throw(e)) =>
          error := e;
        case Completed(Normal(v)) =>
          if !measureTicks {
            match parse(v) {
              case Normal(x) =>
                result := x;
              case Throw(e) =>
                error := e;
            }
          }
      }
      var ticks := tickCounter - ticksAtStart;
      r := Ok(Report(result, ticks, error));
    }

    /** `onmessage`: the two phases, each on its own copy of the inputs, combined into one reply. */
    method OnMessage(script: string, inputs: seq<string>,
                     interp: string -> Guest, parse: Value -> Completion, x: Exhausted) returns (reply: Report)
      modifies this
      ensures reply == Respond(script, inputs, interp, parse, x)
    {
      var clone1 := new InputQueue(inputs);
      var r1 := Evaluate(script, clone1, true, DefaultThreshold, interp, parse, x);
      var phase1 := r1.value;
      if Truthy(phase1.error) {
        return Report(Undefined, phase1.ticks, phase1.error);
      }
      var clone2 := new InputQueue(inputs);
      var r2 := Evaluate(script, clone2, false, DefaultThreshold, interp, parse, x);
      var phase2 := r2.value;
      reply := Report(phase2.result, phase1.ticks, if Truthy(phase1.error) then phase1.error else phase2.error);
    }
  }
}
