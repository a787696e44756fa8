/** How a tool ends: `agent.run(...)` either hands back the validated
    output record, or an `Exception` is raised inside the `try` and the
    tool returns its failure text `"<prefix>" + str(e)` instead (which may
    span several lines). The run itself (model backend, tool
    servers, schema validation, retries) happens outside this model; only
    its outcome enters. */
module AgentRun {

  datatype RunOutcome<+T> =
    | Returned(output: T)
    /** The exception, by its `str(e)`. */
    | Raised(message: string)
}
