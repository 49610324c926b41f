/**
  The values the command-processing frontend of the Lean elaborator threads
  through its loop, and the collaborators it calls but does not define.

  Carrier types whose content the frontend never inspects (environments,
  syntax trees, messages, ...) are opaque. The collaborators (parser,
  elaborator, message builder, header processing, environment creation) are
  total function values held in one `Collaborators` record, so that every
  statement below holds for ANY parser and ANY elaborator unless a lemma
  names an assumption about them.
 */
module FrontendTypes {

  // ---------------------------------------------------------------------
  // Opaque carriers
  // ---------------------------------------------------------------------

  /** The accumulated declarations visible to later commands. */
  type Environment(!new)
  /** A parsed command or module header. */
  type Syntax(!new)
  /** One diagnostic of the message log. */
  type Message(!new)
  /** Line index of the input, part of the parser context. */
  type FileMap(!new)
  /** Token table of the parser context. */
  type TokenTable(!new)
  /** An exception raised by the meta-level (type checking) layer. */
  type MetaException(!new)
  /** An IO error, as returned by environment creation and header processing. */
  type IOError(!new)
  /** Message content produced by collaborators (e.g. from a meta exception). */
  type RenderedData(!new)
  /** What a kernel exception carries when its constructor tag is not 11. */
  type KernelDetail(!new)
  /** The settings of a scope that the elaborator opened (namespace, options, ...). */
  type ScopeData(!new)

  datatype Option<+T> = None | Some(value: T)

  /** The result of an IO action: a value, or the IO error that aborted it. */
  datatype Result<+T, +E> = Ok(value: T) | Err(error: E)

  // ---------------------------------------------------------------------
  // Contexts and states
  // ---------------------------------------------------------------------

  /** The parser context built once per run; fields 1 and 2 are the ones the
      elaborator's command context is made of. */
  datatype ParserContext = ParserContext(input: string, fileName: string, fileMap: FileMap, tokens: TokenTable)

  /** The command context handed to the elaborator: file name and file map. */
  datatype CommandContext = CommandContext(fileName: string, fileMap: FileMap)

  /** The module parser's cursor: the byte position of the next command and
      whether the parser is recovering from an error. */
  datatype ParserState = ParserState(pos: nat, recovering: bool)

  /** The settings of a scope: the defaults of the root scope, or what the
      elaborator put there. */
  datatype ScopeSettings = Defaults | Custom(data: ScopeData)

  /** One entry of the scope stack. */
  datatype Scope = Scope(kind: string, settings: ScopeSettings)

  /** The scope every run starts in: kind "root", empty options, anonymous
      namespace, no open declarations, universe names or variables. */
  const RootScope: Scope := Scope("root", Defaults)

  /** The elaborator's command state, fields in the order the source lays them
      out: environment, messages, command position, scopes. The message log is
      a cons list: the newest message is at index 0. */
  datatype CommandState = CommandState(env: Environment, messages: seq<Message>, cmdPos: nat, scopes: seq<Scope>)

  /** The frontend state: the command state and the parser state. */
  datatype FrontendState = FrontendState(commandState: CommandState, parserState: ParserState)

  // ---------------------------------------------------------------------
  // Exceptions and message data
  // ---------------------------------------------------------------------

  /** A kernel exception, distinguished only by whether its constructor tag is 11
      (a kernel error that carries a text). */
  datatype KernelException = KernelTag11(text: string) | KernelOtherTag(detail: KernelDetail)

  /** An elaboration exception, one variant per constructor tag that the
      exception logger tells apart. Tags 0 and 4 fall into the logger's default
      branch, which wraps the text they carry. */
  datatype Exception =
    | Tag0(text: string)
    | Tag1(msg: Message)
    | Tag2(kernel: KernelException)
    | Tag3(meta: MetaException)
    | Tag4(text: string)
    | Tag5

  /** Message content: a plain text wrapped as formatted message data, or
      content a collaborator rendered. */
  datatype MessageData = Text(text: string) | Rendered(data: RenderedData)

  /** The outcome of a command-level action: a value or an exception, each
      together with the state the action ended in. */
  datatype EResult<+A, +S> = EOk(value: A, state: S) | EError(ex: Exception, state: S)

  // ---------------------------------------------------------------------
  // Collaborators
  // ---------------------------------------------------------------------

  /** Everything the frontend calls but does not define.
      - parseCommand(env, ctx, parserState, messages) = (command, parserState', messages')
      - elabCommand(command, ctx, commandState) = ok or exception, with a new command state
      - mkMessage(data, position, ctx, commandState) = (message, commandState')
      - kernelMessage: the fixed message logged for a kernel exception without a text
      - mkEmptyEnvironment(trustLevel), processHeader(header, messages, ctx, trustLevel):
        the IO steps of the set-up, which may fail
      - defaultFileName: the file name used when the caller gives none */
  datatype Collaborators = Collaborators(
    parseCommand: (Environment, ParserContext, ParserState, seq<Message>) -> (Syntax, ParserState, seq<Message>),
    isEOI: Syntax -> bool,
    isExitCommand: Syntax -> bool,
    elabCommand: (Syntax, CommandContext, CommandState) -> EResult<(), CommandState>,
    mkMessage: (MessageData, Option<nat>, CommandContext, CommandState) -> (Message, CommandState),
    toMessageData: MetaException -> MessageData,
    kernelMessage: MessageData,
    mkEmptyEnvironment: nat -> Result<Environment, IOError>,
    defaultFileName: string,
    mkParserContextCore: (Environment, string, string) -> ParserContext,
    parseHeader: (Environment, ParserContext) -> (Syntax, ParserState, seq<Message>),
    processHeader: (Syntax, seq<Message>, ParserContext, nat) -> Result<(Environment, seq<Message>), IOError>
  )
}
