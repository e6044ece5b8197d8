/**
 * The console bot of `im_bot.py`: `main` keeps one session in a local dict,
 * reads a line, strips it, stops on `exit`/`quit`, and otherwise runs the
 * same three-state machine as `api.py`, printing every reply as a
 * `系统：`-prefixed line. It differs from `handle_message` in `done`, where
 * the "flow ended" line is printed on every input, and for an unknown
 * state, where the loop body does nothing.
 *
 * Console input is the sequence `inputs` (one element per line, read in
 * order); console output is the sequence of printed lines. Running out of
 * input ends the loop.
 */
module Cli {
  import opened Wrappers
  import opened Chars
  import opened Text
  import opened OrderId
  import opened Dialog

  const Prefix := "系统："
  const Exited := "已退出。"
  const CliFlowEnded := "流程已结束。输入“我想查订单”可重新开始，或输入 exit 退出。"

  /** The two lines `main` prints before its loop (the second `print`
      argument ends in a newline of its own). */
  const Banner: seq<string> := ["IM 工单机器人（输入 exit 退出）", "你可以输入“我想查订单”开始\n"]

  /** `user.lower() in ("exit", "quit")`. */
  predicate IsExitCommand(user: string) {
    Lower(user) == "exit" || Lower(user) == "quit"
  }

  /** The exit guard ignores letter case and nothing else: the stripped line
      is `exit` or `quit` with each letter in either case. */
  lemma ExitCommandSpec(user: string)
    ensures IsExitCommand(user) <==>
              |user| == 4 && ((forall k :: 0 <= k < 4 ==> user[k] == "exit"[k] || user[k] == "EXIT"[k])
                              || (forall k :: 0 <= k < 4 ==> user[k] == "quit"[k] || user[k] == "QUIT"[k]))
  {
    assert Lower("exit") == "exit";
    assert Lower("quit") == "quit";
    LowerEqual(user, "exit");
    LowerEqual(user, "quit");
  }

  /** One pass of the loop body on a raw input line: the session afterwards,
      the lines printed, and whether the loop goes on. */
  function CliStep(s: SessionData, line: string, generate: string -> string): (r: (SessionData, seq<string>, bool))
    ensures s.state.Known() ==> r.0.state.Known()
    ensures Consistent(s) ==> Consistent(r.0)
  {
    var user := Strip(line);
    if IsExitCommand(user) then (s, [Prefix + Exited], false)
    else
      match s.state
      case WaitingIntent =>
        if HasIntent(user) then (s.(state := WaitingOrderId), [Prefix + generate(AskOrderIdPrompt)], true)
        else (s, [Prefix + IntentGuidance], true)
      case WaitingOrderId =>
        (match ExtractOrderId(user)
         case None => (s, [Prefix + NotAnOrderId], true)
         case Some(id) => (SessionData(Done, Some(id)), [Prefix + generate(ConfirmPrompt(id))], true))
      case Done =>
        if HasIntent(user) then (SessionData(WaitingOrderId, None), [Prefix + CliFlowEnded, Prefix + AskOrderIdAgain], true)
        else (s, [Prefix + CliFlowEnded], true)
      case Other(_) => (s, [], true)
  }

  /** The body of `main`'s `while True` loop, one input line at a time. */
  method Iteration(s: SessionData, line: string, generate: string -> string)
    returns (next: SessionData, out: seq<string>, cont: bool)
    ensures (next, out, cont) == CliStep(s, line, generate)
  {
    var user := Strip(line);
    if IsExitCommand(user) {
      return s, [Prefix + Exited], false;
    }
    next, out, cont := s, [], true;
    if s.state == WaitingIntent {
      if HasIntent(user) {
        next := next.(state := WaitingOrderId);
        out := [Prefix + generate(AskOrderIdPrompt)];
      } else {
        out := [Prefix + IntentGuidance];
      }
      return;
    }
    if s.state == WaitingOrderId {
      var orderId := ExtractOrderId(user);
      if orderId.None? {
        out := [Prefix + NotAnOrderId];
        return;
      }
      next := next.(orderId := orderId);
      next := next.(state := Done);
      out := [Prefix + generate(ConfirmPrompt(orderId.value))];
      return;
    }
    if s.state == Done {
      out := [Prefix + CliFlowEnded];
      if HasIntent(user) {
        next := next.(state := WaitingOrderId);
        next := next.(orderId := None);
        out := [Prefix + CliFlowEnded, Prefix + AskOrderIdAgain];
      }
    }
  }

  /** What one iteration does, branch by branch: `exit`/`quit` stops with
      the session untouched; `waiting_intent` and `waiting_order_id` move
      only on a keyword or an extracted id; `done` always prints the
      "flow ended" line; an unknown state is passed over in silence. */
  lemma CliStepBranches(s: SessionData, line: string, generate: string -> string)
    ensures IsExitCommand(Strip(line)) ==> CliStep(s, line, generate).0 == s && CliStep(s, line, generate).1 == [Prefix + Exited] && !CliStep(s, line, generate).2
    ensures !IsExitCommand(Strip(line)) ==> CliStep(s, line, generate).2
    ensures !IsExitCommand(Strip(line)) && s.state == WaitingIntent ==>
              if HasIntent(Strip(line)) then CliStep(s, line, generate).0 == SessionData(WaitingOrderId, s.orderId)
              else CliStep(s, line, generate).0 == s && CliStep(s, line, generate).1 == [Prefix + IntentGuidance]
    ensures !IsExitCommand(Strip(line)) && s.state == WaitingOrderId ==>
              if ExtractOrderId(Strip(line)).Some? then CliStep(s, line, generate).0 == SessionData(Done, ExtractOrderId(Strip(line)))
              else CliStep(s, line, generate).0 == s && CliStep(s, line, generate).1 == [Prefix + NotAnOrderId]
    ensures !IsExitCommand(Strip(line)) && s.state == Done ==>
              && |CliStep(s, line, generate).1| >= 1 && CliStep(s, line, generate).1[0] == Prefix + CliFlowEnded
              && if HasIntent(Strip(line)) then CliStep(s, line, generate).0 == SessionData(WaitingOrderId, None) && CliStep(s, line, generate).1 == [CliStep(s, line, generate).1[0], Prefix + AskOrderIdAgain]
                 else CliStep(s, line, generate).0 == s && |CliStep(s, line, generate).1| == 1
    ensures !IsExitCommand(Strip(line)) && s.state.Other? ==> CliStep(s, line, generate).0 == s && CliStep(s, line, generate).1 == []
  {
  }

  /** On a non-exit line in a named state, the console bot moves the session
      exactly as `handle_message` does on the stripped line, and prints the
      same reply, except in `done`, where the "flow ended" line is always
      printed and the request for an id follows it when a keyword is present. */
  lemma SameMachine(s: SessionData, line: string, generate: string -> string)
    requires s.state.Known() && !IsExitCommand(Strip(line))
    ensures CliStep(s, line, generate).0 == Step(s, Strip(line), generate).0
    ensures s.state != Done ==> CliStep(s, line, generate).1 == [Prefix + Step(s, Strip(line), generate).1]
    ensures s.state == Done ==>
              CliStep(s, line, generate).1
                == [Prefix + CliFlowEnded] + (if HasIntent(Strip(line)) then [Prefix + Step(s, Strip(line), generate).1] else [])
  {
  }

  /** The loop from session `s` after it has been fed `inputs`: the session,
      the lines printed, and whether it has stopped on `exit`/`quit`. Once
      stopped, it reads nothing more. */
  function CliRun(s: SessionData, inputs: seq<string>, generate: string -> string): (SessionData, seq<string>, bool)
    decreases |inputs|
  {
    if inputs == [] then (s, [], false)
    else
      var (current, printed, stopped) := CliRun(s, inputs[..|inputs| - 1], generate);
      if stopped then (current, printed, true)
      else
        var (next, lines, cont) := CliStep(current, inputs[|inputs| - 1], generate);
        (next, printed + lines, !cont)
  }

  /** Every iteration keeps the session consistent and in a named state. */
  lemma {:induction false} CliRunConsistent(s: SessionData, inputs: seq<string>, generate: string -> string)
    requires Consistent(s) && s.state.Known()
    ensures Consistent(CliRun(s, inputs, generate).0)
    ensures CliRun(s, inputs, generate).0.state.Known()
    decreases |inputs|
  {
    if inputs != [] {
      CliRunConsistent(s, inputs[..|inputs| - 1], generate);
    }
  }

  /** One iteration moves the session, and decides whether to go on, without
      regard to the generator, and prints as many lines with any generator. */
  lemma CliStepIgnoresGenerator(s: SessionData, line: string, g1: string -> string, g2: string -> string)
    ensures CliStep(s, line, g1).0 == CliStep(s, line, g2).0
    ensures CliStep(s, line, g1).2 == CliStep(s, line, g2).2
    ensures |CliStep(s, line, g1).1| == |CliStep(s, line, g2).1|
  {
  }

  /** The generator only decides what is printed: the sessions the loop goes
      through, and where it stops, are the same for any two generators. */
  lemma {:induction false} CliRunIgnoresGenerator(s: SessionData, inputs: seq<string>, g1: string -> string, g2: string -> string)
    ensures CliRun(s, inputs, g1).0 == CliRun(s, inputs, g2).0
    ensures CliRun(s, inputs, g1).2 == CliRun(s, inputs, g2).2
    ensures |CliRun(s, inputs, g1).1| == |CliRun(s, inputs, g2).1|
    decreases |inputs|
  {
    if inputs != [] {
      var init := inputs[..|inputs| - 1];
      CliRunIgnoresGenerator(s, init, g1, g2);
      CliStepIgnoresGenerator(CliRun(s, init, g1).0, inputs[|inputs| - 1], g1, g2);
    }
  }

  /** Lines after `exit`/`quit` are never read. */
  lemma {:induction false} NothingReadAfterExit(s: SessionData, inputs: seq<string>, more: seq<string>, generate: string -> string)
    requires CliRun(s, inputs, generate).2
    ensures CliRun(s, inputs + more, generate) == CliRun(s, inputs, generate)
    decreases |more|
  {
    if more != [] {
      var init := more[..|more| - 1];
      assert (inputs + more)[..|inputs + more| - 1] == inputs + init;
      NothingReadAfterExit(s, inputs, init, generate);
    } else {
      assert inputs + more == inputs;
    }
  }

  /** Feeding one more line to a loop that has not stopped runs one
      iteration on it. */
  lemma CliRunSnoc(s: SessionData, inputs: seq<string>, i: nat, generate: string -> string)
    requires i < |inputs| && !CliRun(s, inputs[..i], generate).2
    ensures var (current, printed, _) := CliRun(s, inputs[..i], generate);
            var (next, lines, cont) := CliStep(current, inputs[i], generate);
            CliRun(s, inputs[..i + 1], generate) == (next, printed + lines, !cont)
  {
    assert inputs[..i + 1][..i] == inputs[..i];
  }

  /** `main`: the banner, then the loop until `exit`/`quit` or the end of input. */
  method Run(inputs: seq<string>, generate: string -> string)
    returns (session: SessionData, out: seq<string>, exited: bool)
    ensures session == CliRun(Initial, inputs, generate).0
    ensures out == Banner + CliRun(Initial, inputs, generate).1
    ensures exited == CliRun(Initial, inputs, generate).2
    ensures Consistent(session) && session.state.Known()
  {
    session := Initial;
    out := Banner;
    exited := false;
    ghost var printed: seq<string> := [];
    var i := 0;
    assert inputs[..i] == [];
    while i < |inputs| && !exited
      invariant 0 <= i <= |inputs|
      invariant out == Banner + printed
      invariant (session, printed, exited) == CliRun(Initial, inputs[..i], generate)
      decreases |inputs| - i
    {
      CliRunSnoc(Initial, inputs, i, generate);
      var next, lines, cont := Iteration(session, inputs[i], generate);
      printed := printed + lines;
      out := out + lines;
      session := next;
      exited := !cont;
      i := i + 1;
    }
    assert inputs == inputs[..i] + inputs[i..];
    if exited {
      NothingReadAfterExit(Initial, inputs[..i], inputs[i..], generate);
    } else {
      assert inputs[..i] == inputs;
    }
    CliRunConsistent(Initial, inputs, generate);
  }
}
