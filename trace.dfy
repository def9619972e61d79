/**
 * What the device does that can be observed from outside: the calls it makes
 * to its hooks and collaborators, what it logs, and the exceptions it raises.
 */
module Trace {
  import opened Json

  const EXITING_MESSAGE := "Exiting process"
  const EXITING_AFTER_ERROR_MESSAGE := "Exiting process after error"
  const CONNECTION_READY_MESSAGE := "Connection has been initialized successfully"

  /** Why an operation raised an `Exception` instead of returning. */
  datatype ErrorKind =
    | FileMissing      // open() on a configuration path that does not exist
    | Malformed        // json.loads on a file that is not JSON
    | NotADict         // .get on a configuration value that is not a JSON object
    | IndexOutOfRange  // a list or tuple work item with fewer than two elements
    | BadUpdate        // a work item whose second element dict.update refuses
    | HookFailed       // an exception raised inside a hook or a collaborator

  /**
   * An exception: `KeyboardInterrupt`, an ordinary `Exception`, or another
   * `BaseException` (`SystemExit`, `GeneratorExit`) that no `except Exception`
   * catches.
   */
  datatype Fault = Interrupt | Error(kind: ErrorKind) | Uncaught

  datatype Event =
    // provisioning
    | Initialized                 // the external setup initializer ran
    | QueriedInterface            // is_interface_up("wlan0") was asked
    | Slept                       // one time.sleep(1) between queries
    | CheckedConfiguration        // connection_class.check_configuration ran
    | Wrote(content: Value)       // the configuration file was overwritten
    | Removed                     // the configuration file was deleted
    | LoggedError                 // a traceback was logged
    | LoggedInfo(message: string)
    // the work loop
    | GetData(context: map<string, Value>)
    | Executed(key: Value, ootInput: Value)
    | ProcessedResult(key: Value, result: Value, context: map<string, Value>)
    | NoKey(context: map<string, Value>)
    | Exited(context: map<string, Value>)
}
