# Lean elaborator frontend: the command-processing driver

This project models the frontend of the Lean elaborator (module
`Init.Lean.Elab.Frontend`, as compiled to C in
`stage0/stdlib/Init/Lean/Elab/Frontend.c`) and proves properties of it.

The frontend keeps a state made of the elaborator's command state
`{env, messages, cmdPos, scopes}` and the module parser's state. For each
command it does four things:

- it copies the parser position into `cmdPos`;
- it parses the next command;
- it stops at the end of the input or at an exit command;
- otherwise it elaborates the command. When elaboration raises an exception,
  it logs the exception and carries on.

`testFrontend` sets up the run. It creates an empty environment, builds the
parser context, then parses and processes the module header. It then runs the
command loop and returns the final environment and messages.

Files:

- `FrontendTypes.dfy`: the states, contexts, exceptions (one variant per constructor
  tag), message data, and the `Collaborators` record. That record holds every function
  the frontend calls but does not define: the parser, `isEOI`, `isExitCommand`, the
  elaborator, `mkMessage`, `toMessageData`, environment creation, the header parser
  and header processing. They are arbitrary total functions, so every result holds for
  any parser and any elaborator, unless a lemma names an assumption.
- `Frontend.dfy`: the operations. Each one is a function over immutable records,
  except the command loop. The loop is a method with a `while` loop, proved against
  the function `RunLoop`.
- `FrontendProperties.dfy`: lemmas that relate several calls. They cover how the
  loop stops, fuel independence, growth of the message log, position monotonicity,
  exception isolation and set-up failure.

The message log is a cons list. The newest message is at index 0, and logging
`m` turns `msgs` into `[m] + msgs`.

Points of the code's behaviour that the model follows exactly:

- A failed command's environment is not rolled back. The exception is logged
  against the command state returned with it, and that state is kept
  (Frontend.c:1056-1106). `ProcessCommand` and `ProcessCommandRecovers` state this.
- The command loop starts with one root scope on the scope stack
  (Frontend.c:1626-1637, 1706).
- Environment creation and header processing both get trust level 0
  (Frontend.c:1642-1643, 1684).
- `cmdPos` is set from field 0 of the parser state, its position
  (Frontend.c:379-475).
- An exception in the logger's default branch (tags 0 and 4) is logged as its
  own text, wrapped as message data (Frontend.c:773-875). The fixed default
  message is logged only for a kernel exception whose inner tag is not 11
  (Frontend.c:656-663, 877-975).
- Each new message is consed onto the head of the message log, so the newest
  message comes first (Frontend.c:510-545).

## Model

| member | source | states |
|---|---|---|
| `Frontend.GetCmdContext` | stage0/stdlib/Init/Lean/Elab/Frontend.c:53-69 | the command context is made of fields 1 and 2 (file name, file map) of the parser context, and the frontend state is returned unchanged |
| `Frontend.RunCommandElabM` | stage0/stdlib/Init/Lean/Elab/Frontend.c:79-215 | the outcome has the action's ok/exception tag and payload; its command state is the one the action returned, and its parser state is the old one |
| `Frontend.ElabCommandAtFrontend` | stage0/stdlib/Init/Lean/Elab/Frontend.c:233-369 | the same as `RunCommandElabM`, with `elabCommand` as the action: the elaborator's tag and exception are kept, only the command state is replaced, and the parser state is untouched |
| `Frontend.UpdateCmdPos` | stage0/stdlib/Init/Lean/Elab/Frontend.c:379-475 | `cmdPos` becomes the parser state's position; `env`, `messages`, `scopes` and the parser state are unchanged |
| `Frontend.ExceptionMessageData` | stage0/stdlib/Init/Lean/Elab/Frontend.c:546-975 | the message content chosen by tag: tag 3 gives `toMessageData` of the payload; tag 2 with inner tag 11 gives the wrapped inner text; tag 2 with any other inner tag gives the fixed default message; tags 0 and 4 (the default branch) give the wrapped payload |
| `Frontend.LogElabException` | stage0/stdlib/Init/Lean/Elab/Frontend.c:493-975 | tag 5 returns the command state exactly as given; tag 1 conses its message and keeps `env`, `cmdPos` and `scopes`; every other tag conses the message `mkMessage(data, none, ctx, state)` built, onto the messages of the state `mkMessage` returned, and keeps that state's other three fields |
| `Frontend.ProcessCommand` | stage0/stdlib/Init/Lean/Elab/Frontend.c:977-1491 | parses with the current env, parser state and messages. The parser's messages and parser state replace the old ones, and `cmdPos` holds the position from before parsing. Done holds exactly for EOI or an exit command, and then the parsed state is returned with no elaboration. Otherwise the result is not done, the parser state is the parser's, and the command state is the elaborator's state on success, or the exception logged against the state returned with it |
| `Frontend.ProcessCommandsAux` | stage0/stdlib/Init/Lean/Elab/Frontend.c:1501-1548 | the loop returns exactly `RunLoop` of its input: the state of the first step that reports done, each step fed the previous step's state |
| `Frontend.ProcessCommands` | stage0/stdlib/Init/Lean/Elab/Frontend.c:1591-1597 | `processCommands` is the same loop: the result is `RunLoop` of the input |
| `Frontend.FileNameOrDefault` | stage0/stdlib/Init/Lean/Elab/Frontend.c:1651-1667 | a given file name is used as it is; a missing one becomes the default file name |
| `Frontend.InitialState` | stage0/stdlib/Init/Lean/Elab/Frontend.c:1599-1637 | the loop starts from the header's environment and messages, `cmdPos` 0, a scope stack holding only the root scope, and the parser state after the header |
| `Frontend.TestFrontend` | stage0/stdlib/Init/Lean/Elab/Frontend.c:1638-1855 | a failure of `mk_empty_environment(0)` is returned unchanged. Otherwise the parser context is built from the environment, the input and the file name, and the header is parsed. A failure of `processHeader` (trust level 0) is returned unchanged. Otherwise the loop runs from the initial state, and the final `(env, messages)` is returned |
| `FrontendProperties.RunLoopStopsAtFirstDone` | stage0/stdlib/Init/Lean/Elab/Frontend.c:1501-1548 | the loop ends in `t` if and only if some step within the fuel is the first to report done and ends in `t`; no command after the first EOI or exit command is processed |
| `FrontendProperties.RunLoopFuelMonotone` | stage0/stdlib/Init/Lean/Elab/Frontend.c:1501-1548 | once the loop has stopped within some fuel, more fuel gives the same result; the fuel bound changes nothing about a loop that stops |
| `FrontendProperties.LogElabExceptionExtendsLog` | stage0/stdlib/Init/Lean/Elab/Frontend.c:493-975 | when `mkMessage` keeps the log (`MkMessageKeepsLog`; the parser and the elaborator are not called), logging an exception only conses messages onto the head of the log |
| `FrontendProperties.ProcessCommandExtendsLog` | stage0/stdlib/Init/Lean/Elab/Frontend.c:977-1491 | when the parser, the elaborator and `mkMessage` keep the log, one command only conses messages onto the log |
| `FrontendProperties.RunLoopExtendsLog` | stage0/stdlib/Init/Lean/Elab/Frontend.c:1501-1548 | under the same assumption, the final log of the loop extends the log it started with |
| `FrontendProperties.ProcessCommandAdvances` | stage0/stdlib/Init/Lean/Elab/Frontend.c:977-1022 | when the parser never moves backwards, one command never moves the parser back, and a step that reports done leaves `cmdPos` at the position where that command started |
| `FrontendProperties.StepsPositionsMonotone` | stage0/stdlib/Init/Lean/Elab/Frontend.c:1501-1518 | when the parser never moves backwards, the positions copied into `cmdPos` at the start of each step never decrease |
| `FrontendProperties.RunLoopPositions` | stage0/stdlib/Init/Lean/Elab/Frontend.c:1501-1548 | when the parser never moves backwards, the final `cmdPos` lies between the start position and the final parser position |
| `FrontendProperties.LogElabExceptionAddsOneUnlessSilent` | stage0/stdlib/Init/Lean/Elab/Frontend.c:493-975 | when `mkMessage` returns the state it was given, logging adds exactly one message, or none for tag 5; the old log stays as the tail, and `env`, `cmdPos` and `scopes` do not change |
| `FrontendProperties.ProcessCommandRecovers` | stage0/stdlib/Init/Lean/Elab/Frontend.c:1056-1106 | a command whose elaboration raises an exception does not stop the loop. When `mkMessage` returns the state it was given, the result also keeps the `env`, `cmdPos` and `scopes` of the state returned with the exception, and adds one message to its log, or none for tag 5 |
| `FrontendProperties.EndOfInputSkipsElaboration` | stage0/stdlib/Init/Lean/Elab/Frontend.c:1143-1165 | at EOI or an exit command the step does not depend on the elaborator or on `mkMessage`, so nothing is elaborated |
| `FrontendProperties.SetUpFailureSkipsCommands` | stage0/stdlib/Init/Lean/Elab/Frontend.c:1638-1855 | when environment creation or header processing fails, the run is fatal. Its outcome does not depend on the command parser, the elaborator, `mkMessage` or the fuel, so the loop never runs |
| `FrontendProperties.TestFrontendExtendsHeaderLog` | stage0/stdlib/Init/Lean/Elab/Frontend.c:1684-1710 | when the collaborators keep the log, a finished run's messages extend the messages header processing returned |
| `FrontendProperties.TestFrontendFuelMonotone` | stage0/stdlib/Init/Lean/Elab/Frontend.c:1638-1855 | a run that finished with some fuel finishes with the same environment and messages given more fuel |

## Left out

- `Frontend.ProcessCommandsAux`: the source loop has no bound and relies on the parser eventually reporting the end of input. The model bounds it by a `fuel` count of iterations and returns None when the fuel runs out. `TestFrontend` then reports `OutOfFuel`. Termination of the real loop is not modelled.
- Reference counting is not modelled. This covers the exclusive and shared branches that repeat each function's logic, the `lean_inc`/`lean_dec` calls and cell reuse. One path is modelled, over immutable values.
- The boxed wrappers and the closure-allocating curried stubs carry no logic and are not modelled. Examples: `getCmdContext___boxed`, `runCommandElabM`, `updateCmdPos`, `processCommandsAux___main`, `processCommandsAux___rarg`.
- The IO world token threaded through `testFrontend`, environment creation and header processing is dropped. These steps are modelled as functions that return a value or an IO error.
- The module initialiser `initialize_Init_Lean_Elab_Frontend` (lines 1856-1876) is not modelled. It is runtime set-up of global constants.
- The collaborators are fields of `Collaborators` and are not modelled. These are `parseCommand`, `isEOI`, `isExitCommand`, `elabCommand`, `mkMessage`, `toMessageData`, `mkParserContextCore`, `parseHeader`, `processHeader`, `mk_empty_environment`, the default file name constant and the default kernel message constant. The grammar, the elaboration rules and message rendering are not modelled.
- The root scope's fields other than its kind are not modelled one by one (field 2 is empty options, the others are empty values). They are collapsed into `Defaults`.
- The parser-context fields are named file name and file map, after the positions the command context takes (1 and 2). The source shows only those positions.
- Nothing is claimed about rolling back the environment of a failed command. The code keeps the state that comes with the exception.
- The log-growth and position lemmas are conditional. They hold under the stated assumptions about the collaborators (`KeepsLog` and its parts `ParserKeepsLog`, `ElabKeepsLog`, `MkMessageKeepsLog`; `ParserAdvances`; `MkMessageKeepsState`), because the source cannot guarantee them by itself.
