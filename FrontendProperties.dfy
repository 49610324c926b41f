/**
  Properties of the frontend driver that relate several calls: how the command
  loop stops, that it depends on fuel only through whether it has stopped, how
  the message log and the positions evolve under stated assumptions about the
  collaborators, how exceptions are isolated, and what a failed set-up does.
 */
module FrontendProperties {
  import opened FrontendTypes
  import opened Frontend

  // ---------------------------------------------------------------------
  // How the loop stops
  // ---------------------------------------------------------------------

  /** No step among the first `k` reports done. */
  ghost predicate NotDoneBefore(c: Collaborators, pctx: ParserContext, s: FrontendState, k: nat)
  {
    forall j: nat :: j < k ==> !ProcessCommand(c, pctx, Steps(c, pctx, s, j)).0
  }

  /** Step `k` is the first one to report done, and it ends in `t`. */
  ghost predicate FirstDoneAt(c: Collaborators, pctx: ParserContext, s: FrontendState, k: nat, t: FrontendState)
  {
    NotDoneBefore(c, pctx, s, k) && ProcessCommand(c, pctx, Steps(c, pctx, s, k)) == (true, t)
  }

  /** The loop stops in `t` exactly when some step `k` within the fuel is the
      first to report done and ends in `t`: it stops at the first end of input
      or exit command, and nothing after that command is parsed. */
  lemma {:induction false} RunLoopStopsAtFirstDone(c: Collaborators, pctx: ParserContext, s: FrontendState, fuel: nat, t: FrontendState)
    ensures RunLoop(c, pctx, s, fuel) == Some(t) <==> exists k: nat :: k < fuel && FirstDoneAt(c, pctx, s, k, t)
    decreases fuel
  {
    if fuel == 0 {
      return;
    }
    var (done, s') := ProcessCommand(c, pctx, s);
    if done {
      if RunLoop(c, pctx, s, fuel) == Some(t) {
        assert FirstDoneAt(c, pctx, s, 0, t);
      }
      forall k: nat | k < fuel && FirstDoneAt(c, pctx, s, k, t)
        ensures RunLoop(c, pctx, s, fuel) == Some(t)
      {
        assert 0 < k ==> !ProcessCommand(c, pctx, Steps(c, pctx, s, 0)).0;
      }
    } else {
      RunLoopStopsAtFirstDone(c, pctx, s', fuel - 1, t);
      if RunLoop(c, pctx, s, fuel) == Some(t) {
        var k: nat :| k < fuel - 1 && FirstDoneAt(c, pctx, s', k, t);
        ShiftFirstDone(c, pctx, s, k, t);
      }
      forall k: nat | k < fuel && FirstDoneAt(c, pctx, s, k, t)
        ensures RunLoop(c, pctx, s, fuel) == Some(t)
      {
        assert k != 0;
        UnshiftFirstDone(c, pctx, s, k - 1, t);
      }
    }
  }

  /** A first done at step `k` after a first step that was not done is a first
      done at step `k + 1` from the state before that step. */
  lemma ShiftFirstDone(c: Collaborators, pctx: ParserContext, s: FrontendState, k: nat, t: FrontendState)
    requires !ProcessCommand(c, pctx, s).0
    requires FirstDoneAt(c, pctx, ProcessCommand(c, pctx, s).1, k, t)
    ensures FirstDoneAt(c, pctx, s, k + 1, t)
  {
    var s' := ProcessCommand(c, pctx, s).1;
    forall j: nat | j < k + 1
      ensures !ProcessCommand(c, pctx, Steps(c, pctx, s, j)).0
    {
      if j > 0 {
        assert Steps(c, pctx, s, j) == Steps(c, pctx, s', j - 1);
      }
    }
  }

  /** The converse of ShiftFirstDone. */
  lemma UnshiftFirstDone(c: Collaborators, pctx: ParserContext, s: FrontendState, k: nat, t: FrontendState)
    requires FirstDoneAt(c, pctx, s, k + 1, t)
    ensures !ProcessCommand(c, pctx, s).0
    ensures FirstDoneAt(c, pctx, ProcessCommand(c, pctx, s).1, k, t)
  {
    var s' := ProcessCommand(c, pctx, s).1;
    assert Steps(c, pctx, s, 0) == s;
    forall j: nat | j < k
      ensures !ProcessCommand(c, pctx, Steps(c, pctx, s', j)).0
    {
      assert Steps(c, pctx, s, j + 1) == Steps(c, pctx, s', j);
    }
    assert Steps(c, pctx, s, k + 1) == Steps(c, pctx, s', k);
  }

  /** More fuel never changes a loop that has stopped. */
  lemma {:induction false} RunLoopFuelMonotone(c: Collaborators, pctx: ParserContext, s: FrontendState, fuel: nat, more: nat)
    requires RunLoop(c, pctx, s, fuel).Some?
    requires fuel <= more
    ensures RunLoop(c, pctx, s, more) == RunLoop(c, pctx, s, fuel)
    decreases fuel
  {
    var (done, s') := ProcessCommand(c, pctx, s);
    if !done {
      RunLoopFuelMonotone(c, pctx, s', fuel - 1, more - 1);
    }
  }

  // ---------------------------------------------------------------------
  // The message log only grows at its head
  // ---------------------------------------------------------------------

  /** `longer` is `shorter` with zero or more messages consed on its head. */
  ghost predicate ExtendsLog(shorter: seq<Message>, longer: seq<Message>)
  {
    |shorter| <= |longer| && longer[|longer| - |shorter|..] == shorter
  }

  lemma ExtendsLogTransitive(a: seq<Message>, b: seq<Message>, d: seq<Message>)
    requires ExtendsLog(a, b) && ExtendsLog(b, d)
    ensures ExtendsLog(a, d)
  {
  }

  /** The parser never drops or rewrites a message already logged. */
  ghost predicate ParserKeepsLog(c: Collaborators)
  {
    forall env: Environment, pctx: ParserContext, ps: ParserState, msgs: seq<Message> :: ExtendsLog(msgs, c.parseCommand(env, pctx, ps, msgs).2)
  }

  /** The elaborator, on success and on exception, only conses onto the log. */
  ghost predicate ElabKeepsLog(c: Collaborators)
  {
    forall stx: Syntax, ctx: CommandContext, cs: CommandState :: ExtendsLog(cs.messages, c.elabCommand(stx, ctx, cs).state.messages)
  }

  /** The message builder only conses onto the log of the state it is given. */
  ghost predicate MkMessageKeepsLog(c: Collaborators)
  {
    forall d: MessageData, pos: Option<nat>, ctx: CommandContext, cs: CommandState :: ExtendsLog(cs.messages, c.mkMessage(d, pos, ctx, cs).1.messages)
  }

  /** All three collaborators that touch the log keep it. */
  ghost predicate KeepsLog(c: Collaborators)
  {
    ParserKeepsLog(c) && ElabKeepsLog(c) && MkMessageKeepsLog(c)
  }

  /** Logging an exception only conses onto the log, given a message builder
      that keeps the log; the parser and the elaborator play no part. */
  lemma LogElabExceptionExtendsLog(c: Collaborators, ex: Exception, ctx: CommandContext, cs: CommandState)
    requires MkMessageKeepsLog(c)
    ensures ExtendsLog(cs.messages, LogElabException(c, ex, ctx, cs).messages)
  {
  }

  /** One command only conses onto the log, given collaborators that keep it. */
  lemma ProcessCommandExtendsLog(c: Collaborators, pctx: ParserContext, s: FrontendState)
    requires KeepsLog(c)
    ensures ExtendsLog(s.commandState.messages, ProcessCommand(c, pctx, s).1.commandState.messages)
  {
  }

  /** The whole loop only conses onto the log it started with. */
  lemma {:induction false} RunLoopExtendsLog(c: Collaborators, pctx: ParserContext, s: FrontendState, fuel: nat)
    requires KeepsLog(c)
    requires RunLoop(c, pctx, s, fuel).Some?
    ensures ExtendsLog(s.commandState.messages, RunLoop(c, pctx, s, fuel).value.commandState.messages)
    decreases fuel
  {
    var (done, s') := ProcessCommand(c, pctx, s);
    ProcessCommandExtendsLog(c, pctx, s);
    if !done {
      RunLoopExtendsLog(c, pctx, s', fuel - 1);
      ExtendsLogTransitive(s.commandState.messages, s'.commandState.messages,
                           RunLoop(c, pctx, s', fuel - 1).value.commandState.messages);
    }
  }

  // ---------------------------------------------------------------------
  // Positions
  // ---------------------------------------------------------------------

  /** The parser never moves backwards. */
  ghost predicate ParserAdvances(c: Collaborators)
  {
    forall env: Environment, pctx: ParserContext, ps: ParserState, msgs: seq<Message> :: ps.pos <= c.parseCommand(env, pctx, ps, msgs).1.pos
  }

  /** One command moves the parser forward or leaves it; when it reports done,
      the command position is where that last command started. */
  lemma ProcessCommandAdvances(c: Collaborators, pctx: ParserContext, s: FrontendState)
    requires ParserAdvances(c)
    ensures s.parserState.pos <= ProcessCommand(c, pctx, s).1.parserState.pos
    ensures ProcessCommand(c, pctx, s).0 ==> ProcessCommand(c, pctx, s).1.commandState.cmdPos == s.parserState.pos
  {
  }

  /** The positions the loop copies into the command position, one per step,
      never decrease. */
  lemma {:induction false} StepsPositionsMonotone(c: Collaborators, pctx: ParserContext, s: FrontendState, i: nat, j: nat)
    requires ParserAdvances(c)
    requires i <= j
    ensures Steps(c, pctx, s, i).parserState.pos <= Steps(c, pctx, s, j).parserState.pos
    decreases j
  {
    if i < j {
      var s' := ProcessCommand(c, pctx, s).1;
      ProcessCommandAdvances(c, pctx, s);
      if i == 0 {
        StepsPositionsMonotone(c, pctx, s', 0, j - 1);
      } else {
        StepsPositionsMonotone(c, pctx, s', i - 1, j - 1);
      }
    }
  }

  /** When the loop stops, the command position lies between where the loop
      started and where the parser ended. */
  lemma {:induction false} RunLoopPositions(c: Collaborators, pctx: ParserContext, s: FrontendState, fuel: nat)
    requires ParserAdvances(c)
    requires RunLoop(c, pctx, s, fuel).Some?
    ensures var t := RunLoop(c, pctx, s, fuel).value;
      s.parserState.pos <= t.commandState.cmdPos <= t.parserState.pos
    decreases fuel
  {
    var (done, s') := ProcessCommand(c, pctx, s);
    ProcessCommandAdvances(c, pctx, s);
    if !done {
      RunLoopPositions(c, pctx, s', fuel - 1);
    }
  }

  // ---------------------------------------------------------------------
  // Exceptions are isolated
  // ---------------------------------------------------------------------

  /** The message builder returns the state it was given. */
  ghost predicate MkMessageKeepsState(c: Collaborators)
  {
    forall d: MessageData, pos: Option<nat>, ctx: CommandContext, cs: CommandState :: c.mkMessage(d, pos, ctx, cs).1 == cs
  }

  /** Logging an exception conses exactly one message, or none for a silent
      (tag 5) exception, and changes nothing else. */
  lemma LogElabExceptionAddsOneUnlessSilent(c: Collaborators, ex: Exception, ctx: CommandContext, cs: CommandState)
    requires MkMessageKeepsState(c)
    ensures var r := LogElabException(c, ex, ctx, cs);
      && |r.messages| == |cs.messages| + (if ex.Tag5? then 0 else 1)
      && r.messages[|r.messages| - |cs.messages|..] == cs.messages
      && r.env == cs.env && r.cmdPos == cs.cmdPos && r.scopes == cs.scopes
  {
  }

  /** A command whose elaboration raises an exception does not stop the loop:
      the result keeps the environment, position and scopes of the state that
      came with the exception, and adds one message to its log, or none for a
      silent (tag 5) exception. */
  lemma ProcessCommandRecovers(c: Collaborators, pctx: ParserContext, s: FrontendState)
    requires MkMessageKeepsState(c)
    ensures var (stx, ps, msgs) := c.parseCommand(s.commandState.env, pctx, s.parserState, s.commandState.messages);
      var out := c.elabCommand(stx, CommandContext(pctx.fileName, pctx.fileMap), ParsedCommandState(s, msgs));
      var r := ProcessCommand(c, pctx, s);
      !c.isEOI(stx) && !c.isExitCommand(stx) && out.EError? ==>
        && !r.0
        && r.1.commandState.env == out.state.env
        && r.1.commandState.cmdPos == out.state.cmdPos
        && r.1.commandState.scopes == out.state.scopes
        && |r.1.commandState.messages| == |out.state.messages| + (if out.ex.Tag5? then 0 else 1)
        && r.1.commandState.messages[|r.1.commandState.messages| - |out.state.messages|..] == out.state.messages
  {
  }

  /** At the end of the input or at an exit command nothing is elaborated: the
      step's outcome does not depend on the elaborator or the message builder. */
  lemma EndOfInputSkipsElaboration(c: Collaborators, pctx: ParserContext, s: FrontendState,
                                   elab: (Syntax, CommandContext, CommandState) -> EResult<(), CommandState>,
                                   mk: (MessageData, Option<nat>, CommandContext, CommandState) -> (Message, CommandState))
    requires ProcessCommand(c, pctx, s).0
    ensures ProcessCommand(c.(elabCommand := elab, mkMessage := mk), pctx, s) == ProcessCommand(c, pctx, s)
  {
  }

  // ---------------------------------------------------------------------
  // Set-up and the whole run
  // ---------------------------------------------------------------------

  /** The set-up fails: environment creation or header processing returns an
      error. */
  ghost predicate SetUpFails(c: Collaborators, input: string, fileName: Option<string>)
  {
    c.mkEmptyEnvironment(TrustLevel).Err? ||
    (var env := c.mkEmptyEnvironment(TrustLevel).value;
     var pctx := c.mkParserContextCore(env, input, FileNameOrDefault(c, fileName));
     var (header, ps, msgs) := c.parseHeader(env, pctx);
     c.processHeader(header, msgs, pctx, TrustLevel).Err?)
  }

  /** A failed set-up returns its IO error and never reaches the command loop:
      the outcome is fatal and does not depend on the command parser, the
      elaborator, the message builder or the fuel. */
  lemma SetUpFailureSkipsCommands(c: Collaborators, input: string, fileName: Option<string>, fuel: nat,
                                  parse: (Environment, ParserContext, ParserState, seq<Message>) -> (Syntax, ParserState, seq<Message>),
                                  elab: (Syntax, CommandContext, CommandState) -> EResult<(), CommandState>,
                                  mk: (MessageData, Option<nat>, CommandContext, CommandState) -> (Message, CommandState),
                                  fuel': nat)
    requires SetUpFails(c, input, fileName)
    ensures TestFrontend(c, input, fileName, fuel).Fatal?
    ensures TestFrontend(c.(parseCommand := parse, elabCommand := elab, mkMessage := mk), input, fileName, fuel')
         == TestFrontend(c, input, fileName, fuel)
  {
  }

  /** A finished run's log extends the log header processing returned, given
      collaborators that keep the log. */
  lemma TestFrontendExtendsHeaderLog(c: Collaborators, input: string, fileName: Option<string>, fuel: nat)
    requires KeepsLog(c)
    requires TestFrontend(c, input, fileName, fuel).Finished?
    ensures var env := c.mkEmptyEnvironment(TrustLevel).value;
      var pctx := c.mkParserContextCore(env, input, FileNameOrDefault(c, fileName));
      var (header, ps, msgs) := c.parseHeader(env, pctx);
      c.processHeader(header, msgs, pctx, TrustLevel).Ok? &&
      ExtendsLog(c.processHeader(header, msgs, pctx, TrustLevel).value.1, TestFrontend(c, input, fileName, fuel).messages)
  {
    var env := c.mkEmptyEnvironment(TrustLevel).value;
    var pctx := c.mkParserContextCore(env, input, FileNameOrDefault(c, fileName));
    var (header, ps, msgs) := c.parseHeader(env, pctx);
    var (env', msgs') := c.processHeader(header, msgs, pctx, TrustLevel).value;
    RunLoopExtendsLog(c, pctx, InitialState(env', msgs', ps), fuel);
  }

  /** A run that finished with some fuel finishes the same way with more. */
  lemma TestFrontendFuelMonotone(c: Collaborators, input: string, fileName: Option<string>, fuel: nat, more: nat)
    requires TestFrontend(c, input, fileName, fuel).Finished?
    requires fuel <= more
    ensures TestFrontend(c, input, fileName, more) == TestFrontend(c, input, fileName, fuel)
  {
    var env := c.mkEmptyEnvironment(TrustLevel).value;
    var pctx := c.mkParserContextCore(env, input, FileNameOrDefault(c, fileName));
    var (header, ps, msgs) := c.parseHeader(env, pctx);
    var (env', msgs') := c.processHeader(header, msgs, pctx, TrustLevel).value;
    RunLoopFuelMonotone(c, pctx, InitialState(env', msgs', ps), fuel, more);
  }
}
