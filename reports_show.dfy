/**
 * The page that shows one moderation report: its state badge, the menu that
 * moves the report to another state, and the presence checks that decide
 * which parts of the reported account are shown.
 */
module ReportsShow {
  import opened JsValues
  import opened Commands

  const Open := "open"
  const Resolved := "resolved"
  const Closed := "closed"

  /** The three report states, in the order the state menu lists them. */
  const MenuOrder: seq<string> := [Resolved, Open, Closed]

  /** The position of a state in the menu. */
  function Rank(t: string): nat {
    if t == Resolved then 0 else if t == Open then 1 else 2
  }

  /**
   * The targets of the "change state" menu for a report in `state`: each
   * item is rendered only when its target differs from the current state.
   */
  function StateMenu(state: string): (r: seq<string>)
    ensures forall t :: t in r <==> t in MenuOrder && t != state
    ensures forall i, j :: 0 <= i < j < |r| ==> Rank(r[i]) < Rank(r[j])
    ensures |r| == if state in MenuOrder then 2 else 3
  {
    (if Resolved != state then [Resolved] else [])
    + (if Open != state then [Open] else [])
    + (if Closed != state then [Closed] else [])
  }

  /** The `type` of the element-ui tag that shows the report state. */
  datatype TagType = InfoTag | SuccessTag | PrimaryTag

  function GetStateType(state: string): (r: TagType)
    ensures r == InfoTag <==> state == Closed
    ensures r == SuccessTag <==> state == Resolved
    ensures r == PrimaryTag <==> state != Closed && state != Resolved
  {
    match state
    case "closed" => InfoTag
    case "resolved" => SuccessTag
    case _ => PrimaryTag
  }

  /** `toUpperCase` on one character; only the letters a–z are modelled. */
  function UpperAscii(c: char): char {
    if 'a' <= c <= 'z' then (c as int - 32) as char else c
  }

  /** The badge text: the state with its first character upper-cased. */
  function CapitalizeFirstLetter(s: string): (r: string)
    ensures |r| == |s|
    ensures s == [] ==> r == []
    ensures s != [] ==> r[0] == UpperAscii(s[0]) && r[1..] == s[1..]
  {
    if s == [] then [] else [UpperAscii(s[0])] + s[1..]
  }

  /** The badge texts of the three known states. */
  lemma KnownStateLabels()
    ensures CapitalizeFirstLetter(Open) == "Open"
    ensures CapitalizeFirstLetter(Resolved) == "Resolved"
    ensures CapitalizeFirstLetter(Closed) == "Closed"
  {
  }

  /**
   * `propertyExists(t, e, s)`: with a truthy third argument, `t[e] && t[s]`,
   * otherwise `t[e]`. Reading a property of undefined or null throws.
   * The two-argument copy in the note card is the case `s == None`.
   */
  function PropertyExists(t: Value, e: string, s: Option<string>): (r: Result<Value>)
    ensures r.Failure? <==> t == Undefined || t == Null
    ensures r.Success? ==>
      (Truthy(r.value) <==>
        Truthy(Member(t, e)) && (s.Some? && s.value != "" ==> Truthy(Member(t, s.value))))
    ensures r.Success? && !(s.Some? && s.value != "") ==> r.value == Member(t, e)
  {
    if t == Undefined || t == Null then Failure(TypeError)
    else if s.Some? && Truthy(Str(s.value)) then Success(And(Member(t, e), Member(t, s.value)))
    else Success(Member(t, e))
  }

  /** How the awaited `ChangeReportState` dispatch settles. */
  datatype Settlement = Fulfilled | Rejected

  /**
   * What `changeReportState(target, id)` dispatches: the state update, and,
   * once that has been fulfilled, a re-fetch of the same report. A rejected
   * update ends the generator before the re-fetch.
   */
  function ChangeStateCommands(target: string, id: string, outcome: Settlement): (r: seq<Command>)
    ensures |r| == if outcome == Fulfilled then 2 else 1
    ensures r[0] == ChangeReportState([StateUpdate(target, id)])
    ensures outcome == Fulfilled ==> r[1] == FetchSingleReport(id)
  {
    [ChangeReportState([StateUpdate(target, id)])]
    + (if outcome == Fulfilled then [FetchSingleReport(id)] else [])
  }

  /**
   * Every item of the state menu moves the report away from its current
   * state, and re-fetches the report it changed.
   */
  lemma MenuItemsLeaveCurrentState(state: string, id: string, target: string)
    requires target in StateMenu(state)
    ensures target != state && target in MenuOrder
    ensures var c := ChangeStateCommands(target, id, Fulfilled);
      c[0].updates[0].state != state && c[1].reportId == c[0].updates[0].id
  {
  }

  /** Resolving open report 42 updates it to resolved, then re-fetches report 42. */
  lemma ResolveOpenReport()
    ensures Resolved in StateMenu(Open)
    ensures ChangeStateCommands(Resolved, "42", Fulfilled)
      == [ChangeReportState([StateUpdate("resolved", "42")]), FetchSingleReport("42")]
  {
  }

  class ReportsShowPage {
    const store: Store

    constructor (store: Store)
      ensures this.store == store
    {
      this.store := store;
    }

    /** `mounted`: the four requests made when the page opens on report `routeId`. */
    method Mount(routeId: string)
      modifies store`log
      ensures store.log
        == old(store.log) + [NeedReboot, GetNodeInfo, FetchSingleReport(routeId), FetchTagPolicySetting]
    {
      store.Dispatch(NeedReboot);
      store.Dispatch(GetNodeInfo);
      store.Dispatch(FetchSingleReport(routeId));
      store.Dispatch(FetchTagPolicySetting);
    }

    /** `changeReportState`, with the settlement of its awaited dispatch as an input. */
    method ChangeReportState(target: string, id: string, outcome: Settlement)
      modifies store`log
      ensures store.log == old(store.log) + ChangeStateCommands(target, id, outcome)
    {
      store.Dispatch(Command.ChangeReportState([StateUpdate(target, id)]));
      if outcome == Rejected {
        return;
      }
      store.Dispatch(FetchSingleReport(id));
    }
  }
}
