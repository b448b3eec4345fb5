/** Every way an operation of the tool can fail. Several of these are panics in
    the tool (an `unwrap`, an `expect` or a `panic!`); the comment says which. */
module Errors {

  datatype Error =
    /** `watch` on a path that does not exist (panic). */
    | PathNotFound
    /** No default repo name can be derived from the path (an `unwrap` panic). */
    | NoRepoName
    /** A folder path with no entry whose extension is `json` and whose name
        contains `status_` (an `expect` panic). */
    | NoStatusFileFound
    /** The registry file exists but cannot be read or parsed (an `unwrap` panic). */
    | ConfigCorrupt
    /** A poll cycle found the registry empty. */
    | NoFilesToWatch
    /** A watched status file could not be read; carries its path. */
    | StatusFileUnreadable(path: string)
    /** A watched status file is not valid JSON. */
    | StatusFileInvalid
    /** The POST did not get a response (connection failure or timeout). */
    | DashboardUnreachable
    /** The dashboard answered with a status outside 2xx; carries the status. */
    | DashboardRejected(status: nat)
    /** The home directory is unknown or a log file cannot be created. */
    | LogSetupFailed
    /** The dashboard URL variable is not set (an `expect` panic). */
    | MissingDashboardUrl
    /** The termination-signal listener could not be installed. */
    | SignalSetupFailed
    /** The pid marker does not hold a decimal `u32`. */
    | InvalidPid
    /** The `kill` command could not be launched. */
    | KillUnavailable
}
