/**
 * The "moderate user" dropdown shown for the reported account: which items
 * it offers, and which store action each item dispatches, depending on the
 * page it is rendered from (`showPage` or `reportsPage`).
 */
module ModerateUserDropdown {
  import opened JsValues
  import opened Commands

  const TagPolicy := "Pleroma.Web.ActivityPub.MRF.TagPolicy"
  const ShowPage := "showPage"
  const ReportsPage := "reportsPage"

  const ForceNsfw := "mrf_tag:media-force-nsfw"
  const StripMedia := "mrf_tag:media-strip"
  const ForceUnlisted := "mrf_tag:force-unlisted"
  const Sandbox := "mrf_tag:sandbox"
  const DisableRemoteSubscription := "mrf_tag:disable-remote-subscription"
  const DisableAnySubscription := "mrf_tag:disable-any-subscription"

  /** The tag items offered whenever the tag policy is enabled, in menu order. */
  const BaseTags: seq<string> := [ForceNsfw, StripMedia, ForceUnlisted, Sandbox]
  /** The tag items offered only for local accounts, after the base ones. */
  const SubscriptionTags: seq<string> := [DisableRemoteSubscription, DisableAnySubscription]

  /** The computed `tagPolicyEnabled`. */
  function TagPolicyEnabled(policies: seq<string>): (r: bool)
    ensures r <==> exists i :: 0 <= i < |policies| && policies[i] == TagPolicy
  {
    TagPolicy in policies
  }

  /** The computed `tags`: `account.tags || []`. */
  function DisplayedTags(account: Account): (r: seq<string>)
    ensures account.tags.Some? ==> r == account.tags.value
    ensures account.tags.None? ==> r == []
  {
    if account.tags.Some? then account.tags.value else []
  }

  /** The argument of `showDeactivatedButton`: an id, or a whole account object. */
  datatype Operand = IdOperand(id: string) | AccountOperand(account: Account)

  /**
   * `showDeactivatedButton(x)`: the session user's id is strictly unequal
   * to `x`. A string id is never strictly equal to an object.
   */
  function ShowDeactivatedButton(sessionUserId: string, x: Operand): (r: bool)
    ensures r <==> !(x.IdOperand? && x.id == sessionUserId)
  {
    match x
    case IdOperand(id) => sessionUserId != id
    case AccountOperand(_) => true
  }

  datatype TagItem = TagItem(tag: string, active: bool)

  /** The dropdown as rendered: the button and the items that are present. */
  datatype Menu = Menu(
    buttonDisabled: bool,
    deactivateShown: bool,
    offersDeactivation: bool,   // the label says "deactivate" rather than "activate"
    deleteShown: bool,
    tagItems: seq<TagItem>,
    enableTagPolicyShown: bool
  )

  /** The tags whose items the dropdown lists, in menu order. */
  function OfferedTags(policies: seq<string>, account: Account): seq<string> {
    if TagPolicyEnabled(policies) then BaseTags + (if account.local then SubscriptionTags else [])
    else []
  }

  function Item(account: Account, tag: string): TagItem {
    TagItem(tag, tag in DisplayedTags(account))
  }

  /** The dropdown's render function, item by item. */
  function DropdownMenu(sessionUserId: string, policies: seq<string>, account: Account): (m: Menu)
    ensures m.buttonDisabled <==> account.id == ""
    ensures m.deactivateShown
    ensures m.offersDeactivation <==> account.isActive
    ensures m.deleteShown <==> sessionUserId != account.id
    ensures m.enableTagPolicyShown <==> !TagPolicyEnabled(policies)
    ensures |m.tagItems| == |OfferedTags(policies, account)|
    ensures forall i :: 0 <= i < |m.tagItems| ==>
      m.tagItems[i].tag == OfferedTags(policies, account)[i]
      && (m.tagItems[i].active <==> m.tagItems[i].tag in DisplayedTags(account))
  {
    var enabled := TagPolicyEnabled(policies);
    Menu(
      buttonDisabled := !Truthy(Str(account.id)),
      deactivateShown := ShowDeactivatedButton(sessionUserId, AccountOperand(account)),
      offersDeactivation := account.isActive,
      deleteShown := ShowDeactivatedButton(sessionUserId, IdOperand(account.id)),
      tagItems :=
        (if enabled then [Item(account, ForceNsfw)] else [])
        + (if enabled then [Item(account, StripMedia)] else [])
        + (if enabled then [Item(account, ForceUnlisted)] else [])
        + (if enabled then [Item(account, Sandbox)] else [])
        + (if enabled && account.local then [Item(account, DisableRemoteSubscription)] else [])
        + (if enabled && account.local then [Item(account, DisableAnySubscription)] else []),
      enableTagPolicyShown := !enabled
    )
  }

  /**
   * As written, the deactivate item compares the session id with the whole
   * account object, so a moderator viewing a report on their own account is
   * offered to deactivate it, while the delete item is hidden.
   */
  lemma SelfDeactivationOffered(policies: seq<string>, account: Account)
    ensures DropdownMenu(account.id, policies, account).deactivateShown
    ensures !DropdownMenu(account.id, policies, account).deleteShown
  {
  }

  /** The dropdown with the deactivate item guarded by the account's id, like the delete item. */
  function IntendedDropdownMenu(sessionUserId: string, policies: seq<string>, account: Account): (m: Menu)
    ensures m.deactivateShown <==> sessionUserId != account.id
    ensures m.deleteShown <==> sessionUserId != account.id
    ensures m == DropdownMenu(sessionUserId, policies, account).(deactivateShown := m.deactivateShown)
  {
    DropdownMenu(sessionUserId, policies, account)
      .(deactivateShown := ShowDeactivatedButton(sessionUserId, IdOperand(account.id)))
  }

  /** With the intended guard, a moderator is offered neither action on their own account. */
  lemma IntendedMenuHidesSelfModeration(sessionUserId: string, policies: seq<string>, account: Account)
    ensures var m := IntendedDropdownMenu(sessionUserId, policies, account);
      (m.deactivateShown || m.deleteShown) <==> sessionUserId != account.id
  {
  }

  /**
   * `toggleTag(user, tag)`: remove the tag when the account carries it,
   * add it otherwise; the report-list variant also names the report. The
   * membership test reads `user.tags` itself, so an account without a tag
   * list makes it throw. Any other page dispatches nothing.
   */
  function ToggleTagCommands(renderedFrom: string, user: Account, tag: string, reportId: string)
    : (r: Result<seq<Command>>)
    ensures r.Failure? <==> (renderedFrom == ShowPage || renderedFrom == ReportsPage) && user.tags.None?
    ensures r == Success([]) <==> renderedFrom != ShowPage && renderedFrom != ReportsPage
    ensures r == Success([RemoveTagFromReportsFromReportShow(user, tag)])
      <==> renderedFrom == ShowPage && user.tags.Some? && tag in user.tags.value
    ensures r == Success([AddTagFromReportsFromReportShow(user, tag)])
      <==> renderedFrom == ShowPage && user.tags.Some? && tag !in user.tags.value
    ensures r == Success([RemoveTagFromReports(user, tag, reportId)])
      <==> renderedFrom == ReportsPage && user.tags.Some? && tag in user.tags.value
    ensures r == Success([AddTagFromReports(user, tag, reportId)])
      <==> renderedFrom == ReportsPage && user.tags.Some? && tag !in user.tags.value
  {
    if renderedFrom == ShowPage then
      if user.tags.None? then Failure(TypeError)
      else if tag in user.tags.value then Success([RemoveTagFromReportsFromReportShow(user, tag)])
      else Success([AddTagFromReportsFromReportShow(user, tag)])
    else if renderedFrom == ReportsPage then
      if user.tags.None? then Failure(TypeError)
      else if tag in user.tags.value then Success([RemoveTagFromReports(user, tag, reportId)])
      else Success([AddTagFromReports(user, tag, reportId)])
    else
      Success([])
  }

  predicate IsTagRemoval(c: Command) {
    c.RemoveTagFromReportsFromReportShow? || c.RemoveTagFromReports?
  }

  /** The tag list without any occurrence of `tag`. */
  function WithoutTag(tags: seq<string>, tag: string): (r: seq<string>)
    ensures forall t :: t in r <==> t in tags && t != tag
    decreases |tags|
  {
    if tags == [] then []
    else (if tags[0] == tag then [] else [tags[0]]) + WithoutTag(tags[1..], tag)
  }

  /**
   * The effect a tag action is meant to have on the account's tag list:
   * the store removes a present tag and appends an absent one. The store
   * itself is not part of this model.
   */
  function ToggledTags(tags: seq<string>, tag: string): (r: seq<string>)
    ensures tag in r <==> tag !in tags
    ensures forall t :: t != tag ==> (t in r <==> t in tags)
  {
    if tag in tags then WithoutTag(tags, tag) else tags + [tag]
  }

  /**
   * Toggling a tag twice: the second click dispatches the opposite action
   * to the first, and the account ends with the tag membership it started with.
   */
  lemma ToggleTwice(renderedFrom: string, user: Account, tag: string, reportId: string)
    requires renderedFrom == ShowPage || renderedFrom == ReportsPage
    requires user.tags.Some?
    ensures var once := user.(tags := Some(ToggledTags(user.tags.value, tag)));
      var first := ToggleTagCommands(renderedFrom, user, tag, reportId);
      var second := ToggleTagCommands(renderedFrom, once, tag, reportId);
      first.Success? && second.Success? && |first.value| == 1 && |second.value| == 1
      && (IsTagRemoval(first.value[0]) <==> !IsTagRemoval(second.value[0]))
      && forall t :: t in ToggledTags(once.tags.value, tag) <==> t in user.tags.value
  {
  }

  /**
   * `handleDeactivation(user)`: deactivate an active account, activate an
   * inactive one; the report-list variant also names the report. Any other
   * page dispatches nothing.
   */
  function DeactivationCommands(renderedFrom: string, user: Account, reportId: string): (r: seq<Command>)
    ensures r == [] <==> renderedFrom != ShowPage && renderedFrom != ReportsPage
    ensures r == [DeactivateUserFromReportShow(user)] <==> renderedFrom == ShowPage && user.isActive
    ensures r == [ActivateUserFromReportShow(user)] <==> renderedFrom == ShowPage && !user.isActive
    ensures r == [DeactivateUserFromReports(user, reportId)] <==> renderedFrom == ReportsPage && user.isActive
    ensures r == [ActivateUserFromReports(user, reportId)] <==> renderedFrom == ReportsPage && !user.isActive
  {
    if renderedFrom == ShowPage then
      if user.isActive then [DeactivateUserFromReportShow(user)] else [ActivateUserFromReportShow(user)]
    else if renderedFrom == ReportsPage then
      if user.isActive then [DeactivateUserFromReports(user, reportId)]
      else [ActivateUserFromReports(user, reportId)]
    else
      []
  }

  /**
   * `handleDeletion(user)`: after confirmation, delete the account, naming
   * the dropdown's report whatever page it is rendered from.
   */
  function DeletionCommands(answer: Answer, user: Account, reportId: string): (r: seq<Command>)
    ensures r == [] <==> answer == Cancelled
    ensures answer == Confirmed ==> r == [DeleteUserFromReports(user, reportId)]
  {
    match answer
    case Confirmed => [DeleteUserFromReports(user, reportId)]
    case Cancelled => []
  }

  /** `enableTagPolicy`: after confirmation, enable the tag policy. */
  function EnableTagPolicyCommands(answer: Answer): (r: seq<Command>)
    ensures r == [] <==> answer == Cancelled
    ensures answer == Confirmed ==> r == [EnableTagPolicy]
  {
    match answer
    case Confirmed => [EnableTagPolicy]
    case Cancelled => []
  }

  class ModerateUserDropdownView {
    const account: Account
    const reportId: string
    const renderedFrom: string
    const store: Store

    constructor (account: Account, reportId: string, renderedFrom: string, store: Store)
      ensures this.account == account && this.reportId == reportId
      ensures this.renderedFrom == renderedFrom && this.store == store
    {
      this.account := account;
      this.reportId := reportId;
      this.renderedFrom := renderedFrom;
      this.store := store;
    }

    /** The dropdown as rendered from the current store state. */
    function Rendered(): (m: Menu)
      reads store
      ensures m.deactivateShown
      ensures m.deleteShown <==> store.sessionUserId != account.id
      ensures m.enableTagPolicyShown <==> !TagPolicyEnabled(store.mrfPolicies)
    {
      DropdownMenu(store.sessionUserId, store.mrfPolicies, account)
    }

    method ToggleTag(user: Account, tag: string) returns (c: Completion)
      modifies store`log
      ensures c == Normal <==> ToggleTagCommands(renderedFrom, user, tag, reportId).Success?
      ensures store.log == old(store.log) + Emitted(ToggleTagCommands(renderedFrom, user, tag, reportId))
    {
      if renderedFrom == ShowPage || renderedFrom == ReportsPage {
        if user.tags.None? {
          return Thrown(TypeError);
        }
        var present := tag in user.tags.value;
        if renderedFrom == ShowPage {
          if present {
            store.Dispatch(RemoveTagFromReportsFromReportShow(user, tag));
          } else {
            store.Dispatch(AddTagFromReportsFromReportShow(user, tag));
          }
        } else {
          if present {
            store.Dispatch(RemoveTagFromReports(user, tag, reportId));
          } else {
            store.Dispatch(AddTagFromReports(user, tag, reportId));
          }
        }
      }
      c := Normal;
    }

    method HandleDeactivation(user: Account)
      modifies store`log
      ensures store.log == old(store.log) + DeactivationCommands(renderedFrom, user, reportId)
    {
      if renderedFrom == ShowPage {
        if user.isActive {
          store.Dispatch(DeactivateUserFromReportShow(user));
        } else {
          store.Dispatch(ActivateUserFromReportShow(user));
        }
      } else if renderedFrom == ReportsPage {
        if user.isActive {
          store.Dispatch(DeactivateUserFromReports(user, reportId));
        } else {
          store.Dispatch(ActivateUserFromReports(user, reportId));
        }
      }
    }

    /** `handleDeletion`, with the answer to its confirmation dialog as an input. */
    method HandleDeletion(user: Account, answer: Answer)
      modifies store`log
      ensures store.log == old(store.log) + DeletionCommands(answer, user, reportId)
    {
      if answer == Confirmed {
        store.Dispatch(DeleteUserFromReports(user, reportId));
      }
    }

    /** `enableTagPolicy`, with the answer to its confirmation dialog as an input. */
    method EnableTagPolicy(answer: Answer)
      modifies store`log
      ensures store.log == old(store.log) + EnableTagPolicyCommands(answer)
    {
      if answer == Confirmed {
        store.Dispatch(Command.EnableTagPolicy);
      }
    }
  }
}
