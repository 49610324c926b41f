/**
  The frontend driver: build the elaborator's context from the parser context,
  run command-level actions on the command state, keep the command position in
  step with the parser, log elaboration exceptions, process one command, loop
  until the end of the input or an exit command, and set everything up from a
  source text.
 */
module Frontend {
  import opened FrontendTypes

  /** The trust level the set-up passes to environment creation and to header
      processing. */
  const TrustLevel: nat := 0

  // ---------------------------------------------------------------------
  // State helpers
  // ---------------------------------------------------------------------

  /** The elaborator's command context: the file name and file map of the
      parser context. The frontend state is passed through untouched. */
  function GetCmdContext(pctx: ParserContext, s: FrontendState): (r: (CommandContext, FrontendState))
    ensures r.0.fileName == pctx.fileName && r.0.fileMap == pctx.fileMap
    ensures r.1 == s
  {
    (CommandContext(pctx.fileName, pctx.fileMap), s)
  }

  /** Runs a command-level action on the command state. The outcome keeps the
      action's ok/exception tag and payload; only the command state is replaced
      (by the one the action ended in), the parser state stays as it was. */
  function RunCommandElabM<A>(action: (CommandContext, CommandState) -> EResult<A, CommandState>,
                              pctx: ParserContext, s: FrontendState): (r: EResult<A, FrontendState>)
    ensures var out := action(CommandContext(pctx.fileName, pctx.fileMap), s.commandState);
      && r.EOk? == out.EOk?
      && (r.EOk? ==> r.value == out.value)
      && (r.EError? ==> r.ex == out.ex)
      && r.state.commandState == out.state
      && r.state.parserState == s.parserState
  {
    var (ctx, s1) := GetCmdContext(pctx, s);
    match action(ctx, s1.commandState)
    case EOk(a, cs) => EOk(a, FrontendState(cs, s1.parserState))
    case EError(ex, cs) => EError(ex, FrontendState(cs, s1.parserState))
  }

  /** Elaborates one command on the command state: `RunCommandElabM` applied to
      the elaborator. */
  function ElabCommandAtFrontend(c: Collaborators, stx: Syntax, pctx: ParserContext, s: FrontendState): (r: EResult<(), FrontendState>)
    ensures var out := c.elabCommand(stx, CommandContext(pctx.fileName, pctx.fileMap), s.commandState);
      && r.EOk? == out.EOk?
      && (r.EError? ==> r.ex == out.ex)
      && r.state.commandState == out.state
      && r.state.parserState == s.parserState
  {
    RunCommandElabM((ctx, cs) => c.elabCommand(stx, ctx, cs), pctx, s)
  }

  /** Copies the parser's position into the command position; environment,
      messages, scopes and the parser state are left as they were. */
  function UpdateCmdPos(s: FrontendState): (r: FrontendState)
    ensures r.commandState.cmdPos == s.parserState.pos
    ensures r.commandState.env == s.commandState.env
    ensures r.commandState.messages == s.commandState.messages
    ensures r.commandState.scopes == s.commandState.scopes
    ensures r.parserState == s.parserState
  {
    s.(commandState := s.commandState.(cmdPos := s.parserState.pos))
  }

  // ---------------------------------------------------------------------
  // Logging an elaboration exception
  // ---------------------------------------------------------------------

  /** The content of the message logged for an exception that is neither a
      ready message (tag 1) nor silent (tag 5). */
  function ExceptionMessageData(c: Collaborators, ex: Exception): (d: MessageData)
    requires !ex.Tag1? && !ex.Tag5?
    ensures ex.Tag3? ==> d == c.toMessageData(ex.meta)
    ensures ex.Tag2? && ex.kernel.KernelTag11? ==> d == Text(ex.kernel.text)
    ensures ex.Tag2? && !ex.kernel.KernelTag11? ==> d == c.kernelMessage
    ensures ex.Tag0? || ex.Tag4? ==> d == Text(ex.text)
  {
    match ex
    case Tag2(KernelTag11(t)) => Text(t)
    case Tag2(KernelOtherTag(_)) => c.kernelMessage
    case Tag3(m) => c.toMessageData(m)
    case Tag0(t) => Text(t)
    case Tag4(t) => Text(t)
  }

  /** Logs an elaboration exception against a command state. Tag 5 logs nothing;
      tag 1 conses the message it carries; every other tag builds one message
      with `mkMessage` (no position) and conses it onto the messages of the
      state `mkMessage` returned, keeping that state's other three fields. */
  function LogElabException(c: Collaborators, ex: Exception, ctx: CommandContext, cs: CommandState): (r: CommandState)
    ensures ex.Tag5? ==> r == cs
    ensures ex.Tag1? ==>
      r.messages == [ex.msg] + cs.messages && r.env == cs.env && r.cmdPos == cs.cmdPos && r.scopes == cs.scopes
    ensures !ex.Tag1? && !ex.Tag5? ==>
      var (m, st) := c.mkMessage(ExceptionMessageData(c, ex), None, ctx, cs);
      r.messages == [m] + st.messages && r.env == st.env && r.cmdPos == st.cmdPos && r.scopes == st.scopes
  {
    match ex
    case Tag5 => cs
    case Tag1(m) => cs.(messages := [m] + cs.messages)
    case _ =>
      var (m, st) := c.mkMessage(ExceptionMessageData(c, ex), None, ctx, cs);
      st.(messages := [m] + st.messages)
  }

  // ---------------------------------------------------------------------
  // One command
  // ---------------------------------------------------------------------

  /** The command state the parser leaves behind: the position has been
      synchronised with the parser first, and the parser's messages replace
      the old ones. */
  function ParsedCommandState(s: FrontendState, parsedMessages: seq<Message>): (cs: CommandState)
    ensures cs.env == s.commandState.env && cs.scopes == s.commandState.scopes
    ensures cs.cmdPos == s.parserState.pos && cs.messages == parsedMessages
  {
    UpdateCmdPos(s).commandState.(messages := parsedMessages)
  }

  /** Processes one command: synchronise the command position, parse, and stop
      (done) at the end of the input or at an exit command; otherwise elaborate
      it, and on an exception log it and carry on. */
  function ProcessCommand(c: Collaborators, pctx: ParserContext, s: FrontendState): (r: (bool, FrontendState))
    // the parser sees the current environment, parser state and messages
    ensures var (stx, ps, msgs) := c.parseCommand(s.commandState.env, pctx, s.parserState, s.commandState.messages);
      var parsed := ParsedCommandState(s, msgs);
      var ctx := CommandContext(pctx.fileName, pctx.fileMap);
      // done exactly at the end of the input or at an exit command
      && (r.0 <==> c.isEOI(stx) || c.isExitCommand(stx))
      // the parser's new state is kept whatever happens next
      && r.1.parserState == ps
      // done: no elaboration, the parsed state is the result
      && (r.0 ==> r.1.commandState == parsed)
      // otherwise: the elaborator's state, or the exception logged against the
      // state that came with it
      && (!r.0 ==> match c.elabCommand(stx, ctx, parsed)
                   case EOk(_, cs) => r.1.commandState == cs
                   case EError(ex, cs) => r.1.commandState == LogElabException(c, ex, ctx, cs))
  {
    var s1 := UpdateCmdPos(s);
    var (stx, ps, msgs) := c.parseCommand(s1.commandState.env, pctx, s1.parserState, s1.commandState.messages);
    var s2 := FrontendState(ParsedCommandState(s, msgs), ps);
    if c.isEOI(stx) || c.isExitCommand(stx) then
      (true, s2)
    else
      match ElabCommandAtFrontend(c, stx, pctx, s2)
      case EOk(_, s3) => (false, s3)
      case EError(ex, s3) =>
        var (ctx, s4) := GetCmdContext(pctx, s3);
        (false, FrontendState(LogElabException(c, ex, ctx, s4.commandState), s4.parserState))
  }

  // ---------------------------------------------------------------------
  // The command loop
  // ---------------------------------------------------------------------

  /** The state after `k` calls of `ProcessCommand`, whatever they reported. */
  function Steps(c: Collaborators, pctx: ParserContext, s: FrontendState, k: nat): (t: FrontendState)
    decreases k
  {
    if k == 0 then s else Steps(c, pctx, ProcessCommand(c, pctx, s).1, k - 1)
  }

  /** What the loop computes given at most `fuel` iterations: the state of the
      first step that reports done, or None when no step within `fuel` does. */
  function RunLoop(c: Collaborators, pctx: ParserContext, s: FrontendState, fuel: nat): (r: Option<FrontendState>)
    decreases fuel
  {
    if fuel == 0 then None
    else
      var (done, s') := ProcessCommand(c, pctx, s);
      if done then Some(s') else RunLoop(c, pctx, s', fuel - 1)
  }

  /** The command loop: process commands with the same parser context, feeding
      each step's state to the next, until a step reports done. The loop is
      bounded by `fuel` iterations; None means it had not stopped by then. */
  method ProcessCommandsAux(c: Collaborators, pctx: ParserContext, s: FrontendState, fuel: nat)
    returns (r: Option<FrontendState>)
    ensures r == RunLoop(c, pctx, s, fuel)
  {
    var state := s;
    var left: nat := fuel;
    r := None;
    while left > 0
      invariant r.None? && RunLoop(c, pctx, state, left) == RunLoop(c, pctx, s, fuel)
      decreases left
    {
      var (done, next) := ProcessCommand(c, pctx, state);
      if done {
        r := Some(next);
        break;
      }
      state := next;
      left := left - 1;
    }
  }

  /** The command loop under its public name: the same loop as
      `ProcessCommandsAux`. */
  method ProcessCommands(c: Collaborators, pctx: ParserContext, s: FrontendState, fuel: nat)
    returns (r: Option<FrontendState>)
    ensures r == RunLoop(c, pctx, s, fuel)
  {
    r := ProcessCommandsAux(c, pctx, s, fuel);
  }

  // ---------------------------------------------------------------------
  // Set-up and run
  // ---------------------------------------------------------------------

  /** How a whole run ends: with the final environment and messages, with the
      IO error that aborted the set-up, or (model only) not within the fuel. */
  datatype RunOutcome = Finished(env: Environment, messages: seq<Message>) | Fatal(error: IOError) | OutOfFuel

  /** The file name of the run: the one given, or the default. */
  function FileNameOrDefault(c: Collaborators, fileName: Option<string>): (n: string)
    ensures fileName.Some? ==> n == fileName.value
    ensures fileName.None? ==> n == c.defaultFileName
  {
    match fileName
    case None => c.defaultFileName
    case Some(name) => name
  }

  /** The state the command loop starts from once the header is processed: the
      header's environment and messages, command position 0, the root scope,
      and the parser state after the header. */
  function InitialState(env: Environment, messages: seq<Message>, ps: ParserState): (s: FrontendState)
    ensures s.commandState.env == env && s.commandState.messages == messages
    ensures s.commandState.cmdPos == 0 && s.commandState.scopes == [RootScope]
    ensures s.parserState == ps
  {
    FrontendState(CommandState(env, messages, 0, [RootScope]), ps)
  }

  /** Runs the frontend on a source text: create an empty environment, build the
      parser context, parse and process the header, then run the command loop
      and return the final environment and messages. An IO error of the set-up
      is returned unchanged and stops the run before any command is parsed. */
  function TestFrontend(c: Collaborators, input: string, fileName: Option<string>, fuel: nat): (r: RunOutcome)
    ensures c.mkEmptyEnvironment(TrustLevel).Err? ==> r == Fatal(c.mkEmptyEnvironment(TrustLevel).error)
    ensures c.mkEmptyEnvironment(TrustLevel).Ok? ==>
      var env := c.mkEmptyEnvironment(TrustLevel).value;
      var pctx := c.mkParserContextCore(env, input, FileNameOrDefault(c, fileName));
      var (header, ps, msgs) := c.parseHeader(env, pctx);
      match c.processHeader(header, msgs, pctx, TrustLevel)
      case Err(e) => r == Fatal(e)
      case Ok((env', msgs')) =>
        match RunLoop(c, pctx, InitialState(env', msgs', ps), fuel)
        case None => r == OutOfFuel
        case Some(t) => r == Finished(t.commandState.env, t.commandState.messages)
  {
    match c.mkEmptyEnvironment(TrustLevel)
    case Err(e) => Fatal(e)
    case Ok(env) =>
      var pctx := c.mkParserContextCore(env, input, FileNameOrDefault(c, fileName));
      var (header, ps, msgs) := c.parseHeader(env, pctx);
      match c.processHeader(header, msgs, pctx, TrustLevel)
      case Err(e) => Fatal(e)
      case Ok((env', msgs')) =>
        match RunLoop(c, pctx, InitialState(env', msgs', ps), fuel)
        case None => OutOfFuel
        case Some(t) => Finished(t.commandState.env, t.commandState.messages)
  }
}
