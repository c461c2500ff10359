/** The activity log container: the id of the current session's login log,
    the fetched logs, one loading flag and one error slot. The thunks reject
    with a plain message string. */
module ActivityLogSlice {
  import opened Common

  /** One login session of a user; a session still open has no duration. */
  datatype LogEntry = LogEntry(id: string, userId: string, loginTime: int, durationMinutes: Option<int>)

  datatype State = State(
    currentLogId: Option<string>,
    logs: seq<LogEntry>,
    loading: bool,
    error: Option<string>)

  const Initial := State(None, [], false, None)

  datatype Action =
    | ClearLogId
    | RecordLogin(Phase<string, string>)
    | RecordLogout(Phase<bool, string>)
    | FetchLogs(Phase<seq<LogEntry>, string>)

  function Reduce(s: State, a: Action): State {
    match a
    case ClearLogId => s.(currentLogId := None)
    case RecordLogin(ph) =>
      (match ph
       case Fulfilled(id) => s.(currentLogId := Some(id))
       case _ => s)
    case RecordLogout(_) => s
    case FetchLogs(ph) =>
      (match ph
       case Pending => s.(loading := true)
       case Fulfilled(xs) => s.(loading := false, logs := xs)
       case Rejected(msg) => s.(loading := false, error := Some(msg)))
  }

  // ---- properties ----

  /** The log id lifecycle: a recorded login stores its id, clearing drops
      it, and nothing else changes in either step. */
  lemma LogIdLifecycle(s: State, id: string)
    ensures Reduce(s, RecordLogin(Fulfilled(id))) == s.(currentLogId := Some(id))
    ensures Reduce(s, ClearLogId) == s.(currentLogId := None)
    ensures Reduce(Reduce(s, RecordLogin(Fulfilled(id))), ClearLogId).currentLogId == None
  {
  }

  /** A login that is still pending or failed records nothing, and the
      logout has no case at all, whatever its phase: it does not even drop
      the log id. */
  lemma UnhandledPhasesChangeNothing(s: State, msg: string, ph: Phase<bool, string>)
    ensures Reduce(s, RecordLogin(Pending)) == s
    ensures Reduce(s, RecordLogin(Rejected(msg))) == s
    ensures Reduce(s, RecordLogout(ph)) == s
  {
  }

  /** A fetch's pending case raises the flag but keeps an earlier error; a
      response replaces the logs, a failure keeps them and stores the
      message. */
  lemma FetchLogsCases(s: State, xs: seq<LogEntry>, msg: string)
    ensures var r := Reduce(s, FetchLogs(Pending));
            r.loading && r.error == s.error && r.logs == s.logs
    ensures var r := Reduce(s, FetchLogs(Fulfilled(xs)));
            !r.loading && r.logs == xs && r.error == s.error && r.currentLogId == s.currentLogId
    ensures var r := Reduce(s, FetchLogs(Rejected(msg)));
            !r.loading && r.logs == s.logs && r.error == Some(msg)
  {
  }

  /** An error survives a later successful fetch: nothing in the container
      clears it. */
  lemma ErrorIsSticky(s: State, msg: string, xs: seq<LogEntry>)
    ensures var r := Reduce(Reduce(Reduce(s, FetchLogs(Rejected(msg))), FetchLogs(Pending)),
                            FetchLogs(Fulfilled(xs)));
            r.error == Some(msg) && r.logs == xs
  {
  }
}
