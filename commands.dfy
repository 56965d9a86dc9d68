/**
 * The actions the moderation panel dispatches to its store, one constructor
 * per action name, and the store as the panel sees it: the log of dispatched
 * actions, the session user's id and the instance's MRF policies.
 */
module Commands {
  import opened JsValues

  /** The reported account, as far as the moderation dropdown reads it. */
  datatype Account = Account(
    id: string,
    isActive: bool,           // `is_active`, read for truthiness
    local: bool,              // `local`, read for truthiness
    tags: Option<seq<string>> // `tags`; None when the property is undefined or null
  )

  /** One element of the `ChangeReportState` payload. */
  datatype StateUpdate = StateUpdate(state: string, id: string)

  datatype Command =
    | NeedReboot
    | GetNodeInfo
    | FetchTagPolicySetting
    | FetchSingleReport(reportId: string)
    | ChangeReportState(updates: seq<StateUpdate>)
    | CreateReportNote(content: Option<string>, reportID: string)
    | DeleteReportNote(noteID: string, reportID: string)
    | EnableTagPolicy
    | AddTagFromReportsFromReportShow(user: Account, tag: string)
    | RemoveTagFromReportsFromReportShow(user: Account, tag: string)
    | AddTagFromReports(user: Account, tag: string, reportId: string)
    | RemoveTagFromReports(user: Account, tag: string, reportId: string)
    | DeactivateUserFromReportShow(user: Account)
    | ActivateUserFromReportShow(user: Account)
    | DeactivateUserFromReports(user: Account, reportId: string)
    | ActivateUserFromReports(user: Account, reportId: string)
    | DeleteUserFromReports(user: Account, reportId: string)

  /** The answer to a `$confirm` dialog: its `then` or its `catch` branch. */
  datatype Answer = Confirmed | Cancelled

  /** What a handler dispatches: nothing when it threw before dispatching. */
  function Emitted(r: Result<seq<Command>>): seq<Command> {
    if r.Success? then r.value else []
  }

  class Store {
    var log: seq<Command>
    var sessionUserId: string      // `state.user.id`
    var mrfPolicies: seq<string>   // `state.users.mrfPolicies`

    constructor (sessionUserId: string, mrfPolicies: seq<string>)
      ensures log == []
      ensures this.sessionUserId == sessionUserId && this.mrfPolicies == mrfPolicies
    {
      log := [];
      this.sessionUserId := sessionUserId;
      this.mrfPolicies := mrfPolicies;
    }

    /** `$store.dispatch`: what the action then does is the store's business. */
    method Dispatch(c: Command)
      modifies this`log
      ensures log == old(log) + [c]
    {
      log := log + [c];
    }
  }
}
