/** Roles, actions and the role table (boards/access_rules.py). */
module AccessRules {
  import opened Prelude

  /** A stored role text; OtherRole is any text outside the table. */
  datatype Role = Contributor | Editor | Reviewer | Manager | OtherRole(text: string)

  datatype BoardAction =
    | CreatePost | EditOwnDraft | EditOwnPost | EditAnyPost | SubmitPost | ViewReviewQueue
    | ReviewPost | PublishPost | ModerateComment | ChangeBoardSettings | ManageBoardMembers
    | OtherAction(name: string)

  const CONTRIBUTOR_ACTIONS: set<BoardAction> := {CreatePost, EditOwnDraft, SubmitPost}

  predicate RoleGrants(role: Role, action: BoardAction) {
    match role
    case Contributor => action in CONTRIBUTOR_ACTIONS
    case Editor => action in CONTRIBUTOR_ACTIONS + {EditOwnPost}
    case Reviewer => action in {ViewReviewQueue, ReviewPost, PublishPost, ModerateComment}
    case Manager => !action.OtherAction?
    case OtherRole(_) => false
  }

  /** `allows_board_action` */
  predicate AllowsBoardAction(
    role: Option<Role>, action: BoardAction, membershipIsActive: bool, sameBoard: bool, ownsObject: bool)
  {
    if !membershipIsActive || !sameBoard || role == None then false
    else if role.value.OtherRole? || action.OtherAction? then false
    else if !RoleGrants(role.value, action) then false
    else if action in {EditOwnDraft, EditOwnPost, SubmitPost} && !ownsObject then false
    else if action in {ReviewPost, PublishPost} then !ownsObject
    else true
  }

  /** Nobody reviews or publishes their own post, and the own-object actions need ownership, whatever the role. */
  lemma SeparationOfDuties(role: Option<Role>, action: BoardAction, owns: bool)
    requires AllowsBoardAction(role, action, true, true, owns)
    ensures action in {ReviewPost, PublishPost} ==> !owns
    ensures action in {EditOwnDraft, EditOwnPost, SubmitPost} ==> owns
    ensures role.Some? && !role.value.OtherRole?
  {
  }

  /** A manager may do all that any other role may; an editor all that a contributor may. */
  lemma RolesAreNested(role: Role, action: BoardAction, owns: bool)
    ensures AllowsBoardAction(Some(role), action, true, true, owns) ==>
        AllowsBoardAction(Some(Manager), action, true, true, owns)
    ensures AllowsBoardAction(Some(Contributor), action, true, true, owns) ==>
              AllowsBoardAction(Some(Editor), action, true, true, owns)
  {
  }

  /** Who may do what, action by action, with an active membership of the board. */
  lemma RolesOfActions(role: Role, owns: bool)
    ensures AllowsBoardAction(Some(role), CreatePost, true, true, owns) <==> role in {Contributor, Editor, Manager}
    ensures AllowsBoardAction(Some(role), EditOwnDraft, true, true, owns) <==>
            owns && role in {Contributor, Editor, Manager}
    ensures AllowsBoardAction(Some(role), EditOwnPost, true, true, owns) <==> owns && role in {Editor, Manager}
    ensures AllowsBoardAction(Some(role), EditAnyPost, true, true, owns) <==> role == Manager
    ensures AllowsBoardAction(Some(role), SubmitPost, true, true, owns) <==>
            owns && role in {Contributor, Editor, Manager}
    ensures AllowsBoardAction(Some(role), ViewReviewQueue, true, true, owns) <==> role in {Reviewer, Manager}
    ensures AllowsBoardAction(Some(role), ReviewPost, true, true, owns) <==> !owns && role in {Reviewer, Manager}
    ensures AllowsBoardAction(Some(role), PublishPost, true, true, owns) <==> !owns && role in {Reviewer, Manager}
    ensures AllowsBoardAction(Some(role), ModerateComment, true, true, owns) <==> role in {Reviewer, Manager}
    ensures AllowsBoardAction(Some(role), ChangeBoardSettings, true, true, owns) <==> role == Manager
    ensures AllowsBoardAction(Some(role), ManageBoardMembers, true, true, owns) <==> role == Manager
  {
  }

  /** Without a role, on another board, by an inactive membership or for an unknown action nothing is allowed. */
  lemma NothingElseIsAllowed(role: Option<Role>, action: BoardAction, active: bool, sameBoard: bool, owns: bool)
    requires role == None || !active || !sameBoard || action.OtherAction?
    ensures !AllowsBoardAction(role, action, active, sameBoard, owns)
  {
  }
}
