/**
 * The part of Android's WorkManager that the keep-alive scheduler relies on:
 * a table of uniquely named pending one-time work requests. Timing, backoff
 * execution and constraints are recorded on the request, never run.
 */
module WorkQueue {
  import opened Wrappers

  datatype NetworkType = NotRequired | Connected

  datatype BackoffPolicy = Linear | Exponential

  datatype BackoffCriteria = BackoffCriteria(policy: BackoffPolicy, delaySeconds: nat)

  /**
   * A one-time work request. `backoff == None` leaves WorkManager's
   * default retry policy in force.
   */
  datatype WorkRequest = WorkRequest(
    worker: string,
    initialDelaySeconds: nat,
    requiredNetwork: NetworkType,
    backoff: Option<BackoffCriteria>,
    tags: seq<string>)

  class WorkManager {
    /** False until the application initialises WorkManager; `getInstance` throws before that. */
    var initialized: bool
    var uniqueWork: map<string, WorkRequest>

    constructor (initialized: bool)
      ensures this.initialized == initialized && uniqueWork == map[]
    {
      this.initialized := initialized;
      uniqueWork := map[];
    }

    /**
     * `getInstance(context).enqueueUniqueWork(name, REPLACE, request)`, the
     * only policy this app uses: the new request replaces any pending one.
     * `ok` is false when `getInstance` throws.
     */
    method EnqueueUniqueWork(name: string, request: WorkRequest) returns (ok: bool)
      modifies this`uniqueWork
      ensures ok == initialized
      ensures uniqueWork == if ok then old(uniqueWork)[name := request] else old(uniqueWork)
    {
      ok := initialized;
      if ok {
        uniqueWork := uniqueWork[name := request];
      }
    }

    /** `getInstance(context).cancelUniqueWork(name)`; a name with nothing pending is left as it is. */
    method CancelUniqueWork(name: string) returns (ok: bool)
      modifies this`uniqueWork
      ensures ok == initialized
      ensures uniqueWork == if ok then old(uniqueWork) - {name} else old(uniqueWork)
    {
      ok := initialized;
      if ok {
        uniqueWork := uniqueWork - {name};
      }
    }
  }
}
