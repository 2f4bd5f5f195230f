/**
 * The rows the tutoring app stores and passes around: exercise units of a
 * module (week), per-run progress rows, chat log entries and hint usage
 * entries. Timestamps are integers (milliseconds since the epoch) supplied by
 * the caller; identifiers are opaque strings.
 */
module Records {

  /** One exercise unit: a subproblem of a problem of a module. */
  datatype ContentUnit = ContentUnit(
    id: string,
    moduleNumber: int,
    problemIndex: int,
    subproblemIndex: int,
    problemText: string,
    subproblemText: string,
    subproblemSolution: string)

  /** One attempt ("run") of a user at a module. */
  datatype StudentProgress = StudentProgress(
    id: string,
    userId: string,
    moduleNumber: int,
    runId: string,
    currentProblem: int,
    currentSubproblem: int,
    isComplete: bool,
    startedAt: int,
    updatedAt: int)

  datatype Role = User | Ai

  /** One turn of the tutoring conversation, tagged with the position at which it was sent. */
  datatype ChatLog = ChatLog(
    id: string,
    userId: string,
    moduleNumber: int,
    runId: string,
    problemIndex: int,
    subproblemIndex: int,
    role: Role,
    message: string,
    timeSent: int)

  /** One delivered hint. */
  datatype HintUsageLog = HintUsageLog(
    hintLevel: int,
    hintProvided: string,
    timeOpened: int)

  /** What the session service hands to the problem flow. */
  datatype SessionData = SessionData(
    userId: string,
    runId: string,
    progressId: string,
    progress: StudentProgress,
    chatHistory: seq<ChatLog>)
}
