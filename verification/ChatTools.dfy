/**
 What the six chat tools do and what they report (src/chat/service.ts, executeChatAgentTool). A tool
 reports a committed mutation with a flag; whether it changed anything is another matter.
 */
module ChatTools {
  datatype Tool = InspectProject | ProjectState | ReadMemory | RunCommand | GoalWorkspaceCommand | GovernedAction

  datatype Access = ReadOnly | Standard | Approval | Full

  /** A planned command: what its plan says, and how it ends if it is started. */
  datatype Command = Command(longRunning: bool, blocked: bool, standardAllowed: bool, hasProject: bool, exitsWell: bool)

  datatype CommandStatus = Completed | CommandFailed | Blocked | Pending

  datatype Raise = NoRaise | Error(reason: string) | Abort

  /**
   What happens under a tool call. `refused`: the tool's own checks turn the request down.
   `succeeded`: the governed action says so. `changed`: something outside the chat is different
   afterwards, if the call got as far as doing anything. `raises`: the error that ends it.
   */
  datatype Deed = Deed(refused: bool, command: Command, succeeded: bool, changed: bool, raises: Raise)

  datatype Use = Use(tool: Tool, access: Access, deed: Deed)

  datatype ToolReply = Returned(committed: bool) | Raised(reason: string) | RaisedAbort

  /** executeChatCommand: runs the command unless its plan or the access mode forbids it. */
  function Execute(access: Access, c: Command): CommandStatus {
    if c.blocked || access == ReadOnly then Blocked
    else if access == Standard && !c.standardAllowed then Blocked
    else if access == Approval then Pending
    else if !c.hasProject then Blocked
    else Exit(c)
  }

  function Exit(c: Command): CommandStatus {
    if c.exitsWell then Completed else CommandFailed
  }

  /** Under Full Access a server is started as a managed process instead. */
  function RunStatus(access: Access, c: Command): CommandStatus {
    if c.longRunning && access == Full then Exit(c) else Execute(access, c)
  }

  /** The status of the command a tool runs, if it is one that does and does not refuse. */
  function StatusOf(u: Use): CommandStatus {
    var c := u.deed.command;
    if u.deed.refused then Blocked
    else
      match u.tool
      case RunCommand => RunStatus(u.access, c)
      case GoalWorkspaceCommand => if u.access != Full || c.longRunning || c.blocked then Blocked else Execute(Full, c)
      case _ => Blocked
  }

  /** The mutationCommitted of a tool that returns. */
  predicate Reports(u: Use) {
    match u.tool
    case RunCommand => StatusOf(u) == Completed
    case GoalWorkspaceCommand => StatusOf(u) == Completed || StatusOf(u) == CommandFailed
    case GovernedAction => u.access == Full && !u.deed.refused && u.deed.succeeded
    case _ => false
  }

  function ReplyTo(u: Use): ToolReply {
    match u.deed.raises
    case NoRaise => Returned(Reports(u))
    case Error(reason) => Raised(reason)
    case Abort => RaisedAbort
  }

  predicate Commits(u: Use) {
    ReplyTo(u) == Returned(true)
  }

  /**
   The call got as far as something that can change the outside: a command was started, or a governed
   action executed.
   */
  predicate Acts(u: Use) {
    || StatusOf(u) == Completed || StatusOf(u) == CommandFailed
    || (u.tool == GovernedAction && u.access == Full && !u.deed.refused)
  }

  predicate HasEffect(u: Use) {
    Acts(u) && u.deed.changed
  }

  /**
   A call that changes something and does not report it: it raises, or it is a project command that
   exits badly, or a governed action that does not succeed.
   */
  predicate Unreported(u: Use) {
    HasEffect(u)
    && (u.deed.raises != NoRaise
        || (u.tool == RunCommand && !u.deed.command.exitsWell)
        || (u.tool == GovernedAction && !u.deed.succeeded))
  }

  /** Exactly those effects go unreported; in particular a workspace command that returns reports every effect. */
  lemma UnreportedIff(u: Use)
    ensures HasEffect(u) && !Commits(u) <==> Unreported(u)
    ensures u.tool == GoalWorkspaceCommand && u.deed.raises == NoRaise ==> !Unreported(u)
  {
  }

  /** A command is started: it is a server under Full Access, or the plan, the access mode and a project allow it. */
  predicate Starts(access: Access, c: Command) {
    || (access == Full && c.longRunning)
    || (!c.blocked && c.hasProject && (access == Full || (access == Standard && c.standardAllowed)))
  }

  /**
   Exactly which calls can change something, and which report it: a project command that starts, which
   reports when it exits well; a workspace command that starts in the foreground under Full Access,
   which reports always; and an action executed under Full Access, which reports when it succeeds.
   */
  lemma ActsAndReportsIff(u: Use)
    ensures var d, c := u.deed, u.deed.command;
      match u.tool
      case RunCommand =>
        (Acts(u) <==> !d.refused && Starts(u.access, c)) && (Reports(u) <==> Acts(u) && c.exitsWell)
      case GoalWorkspaceCommand =>
        && (Acts(u) <==> !d.refused && u.access == Full && !c.longRunning && !c.blocked && c.hasProject)
        && (Reports(u) <==> Acts(u))
      case GovernedAction =>
        (Acts(u) <==> !d.refused && u.access == Full) && (Reports(u) <==> Acts(u) && d.succeeded)
      case _ => !Acts(u) && !Reports(u)
    ensures ReplyTo(u) == match u.deed.raises
      case NoRaise => Returned(Reports(u))
      case Error(reason) => Raised(reason)
      case Abort => RaisedAbort
  {
  }

  /**
   Nothing is reported, and nothing changed, by reading, by a refused request, or where the access
   mode does not let it.
   */
  lemma OnlyActionsCommit(u: Use)
    ensures Commits(u) || HasEffect(u) ==>
      !u.deed.refused && u.access in {Standard, Full} && u.tool in {RunCommand, GoalWorkspaceCommand, GovernedAction}
    ensures (Commits(u) || HasEffect(u)) && u.access == Standard ==>
      u.tool == RunCommand && u.deed.command.standardAllowed && !u.deed.command.blocked
  {
  }
}
