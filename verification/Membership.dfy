/**
 Board memberships (boards/services.py): one locked transition helper, the public operations built on
 it, and the event log it appends to. Every operation is one database transaction.
 */
module Membership {
  import opened Prelude
  import opened AccessRules

  datatype Member = Member(role: Role, active: bool)

  /** A membership row is found by its board and user. */
  datatype Place = Place(board: nat, user: nat)

  datatype Source = FromRequest | SelfService | Dashboard | SuperAdmin

  datatype EventType = Granted | RoleChanged | Deactivated | Reactivated | ManagerTransferred

  /** `previous` is None where the source stores an empty role and a null flag. */
  datatype Event = Event(
    place: Place, eventType: EventType, source: Source, previous: Option<Member>, next: Member,
    actor: nat, request: Option<nat>)

  datatype RequestStatus = Pending | Approved | Rejected

  datatype Request = Request(place: Place, role: Role, status: RequestStatus, previousRole: Option<Role>,
      reviewer: Option<nat>)

  datatype Account = Account(active: bool, superuser: bool)

  datatype State = State(
    boards: map<nat, bool>, users: map<nat, Account>, members: map<Place, Member>,
    events: seq<Event>, requests: seq<Request>)

  datatype Refusal =
    | NoReason | Missing | NotPermitted | PendingRequest | AlreadyMember | NotActive | StillActive | Unchanged
    | UnknownRole | InactiveTarget | SuperuserTarget | LastManager | NothingToDeactivate
    | UnknownDisposition | NotManager | SelfTransfer | AlreadyManager | WrongConfirmation | OtherManagers
    | AlreadyDecided | AlreadyHeld

  /* ---------- Checks shared by the operations ---------- */

  function Lookup(s: State, p: Place): Option<Member> {
    if p in s.members then Some(s.members[p]) else None
  }

  predicate BoardActive(s: State, board: nat) {
    board in s.boards && s.boards[board]
  }

  predicate UserActive(s: State, user: nat) {
    user in s.users && s.users[user].active
  }

  predicate IsSuperuser(s: State, user: nat) {
    user in s.users && s.users[user].superuser
  }

  predicate HasPending(s: State, p: Place, except: Option<nat>) {
    exists i :: 0 <= i < |s.requests| && s.requests[i].place == p && s.requests[i].status == Pending
        && Some(i) != except
  }

  function ActiveManagers(s: State, board: nat): set<Place> {
    set p | p in s.members && p.board == board && s.members[p] == Member(Manager, true)
  }

  /** `_assert_manager_continuity` passes. */
  predicate Continuous(s: State, p: Place, next: Member, source: Source) {
    Lookup(s, p) == Some(Member(Manager, true)) && next != Member(Manager, true) && source != SuperAdmin ==>
      |ActiveManagers(s, p.board)| > 1
  }

  /** `_transition_event_type` */
  function TransitionEventType(current: Option<Member>, next: Member): Result<EventType, Refusal> {
    match current
    case None => if !next.active then Err(NothingToDeactivate) else Ok(Granted)
    case Some(m) =>
      if !m.active && next.active then Ok(Reactivated)
      else if m.active && !next.active then Ok(Deactivated)
      else if m.role != next.role then Ok(RoleChanged)
      else Err(Unchanged)
  }

  /** The state after the row and its event are written. */
  function Written(s: State, p: Place, actor: nat, next: Member, source: Source, request: Option<nat>,
      kind: EventType): State {
    s.(members := s.members[p := next],
       events := s.events + [Event(p, kind, source, Lookup(s, p), next, actor, request)])
  }

  /** `_transition_board_membership` */
  function Transition(
    s: State, p: Place, actor: nat, next: Member, source: Source, request: Option<nat>, override: Option<EventType>)
    : Result<State, Refusal>
  {
    if next.role.OtherRole? then Err(UnknownRole)
    else if next.active && (!BoardActive(s, p.board) || !UserActive(s, p.user)) then Err(InactiveTarget)
    else if IsSuperuser(s, p.user) then Err(SuperuserTarget)
    else if HasPending(s, p, request) then Err(PendingRequest)
    else if !Continuous(s, p, next, source) then Err(LastManager)
    else
      match (override, TransitionEventType(Lookup(s, p), next))
      case (Some(kind), _) => Ok(Written(s, p, actor, next, source, request, kind))
      case (None, Ok(kind)) => Ok(Written(s, p, actor, next, source, request, kind))
      case (None, Err(e)) => Err(e)
  }

  /* ---------- The operations ---------- */

  /** `grant_board_membership`; `permitted` stands for the actor's permission and step-up capability. */
  function Grant(s: State, p: Place, actor: nat, role: Role, reason: string, permitted: bool): Result<State, Refusal> {
    if reason == "" then Err(NoReason)
    else if p.board !in s.boards || p.user !in s.users then Err(Missing)
    else if HasPending(s, p, None) then Err(PendingRequest)
    else if p in s.members then Err(AlreadyMember)
    else if !permitted then Err(NotPermitted)
    else Transition(s, p, actor, Member(role, true), Dashboard, None, None)
  }

  /** `change_board_membership_role` */
  function ChangeRole(s: State, p: Place, actor: nat, role: Role, reason: string, permitted: bool)
    : Result<State, Refusal>
  {
    if reason == "" then Err(NoReason)
    else if p !in s.members then Err(Missing)
    else if !s.members[p].active then Err(NotActive)
    else if HasPending(s, p, None) then Err(PendingRequest)
    else if s.members[p].role == role then Err(Unchanged)
    else if !Continuous(s, p, Member(role, true), Dashboard) then Err(LastManager)
    else if !permitted then Err(NotPermitted)
    else Transition(s, p, actor, Member(role, true), Dashboard, None, None)
  }

  /** `deactivate_board_membership` */
  function Deactivate(s: State, p: Place, actor: nat, reason: string, permitted: bool): Result<State, Refusal> {
    if reason == "" then Err(NoReason)
    else if p !in s.members then Err(Missing)
    else if !s.members[p].active then Err(NotActive)
    else if HasPending(s, p, None) then Err(PendingRequest)
    else if !Continuous(s, p, s.members[p].(active := false), Dashboard) then Err(LastManager)
    else if !permitted then Err(NotPermitted)
    else Transition(s, p, actor, s.members[p].(active := false), Dashboard, None, None)
  }

  /** `reactivate_board_membership` */
  function Reactivate(s: State, p: Place, actor: nat, role: Role, reason: string, permitted: bool)
    : Result<State, Refusal>
  {
    if reason == "" then Err(NoReason)
    else if p !in s.members then Err(Missing)
    else if s.members[p].active then Err(StillActive)
    else if HasPending(s, p, None) then Err(PendingRequest)
    else if !permitted then Err(NotPermitted)
    else Transition(s, p, actor, Member(role, true), Dashboard, None, None)
  }

  /** What becomes of the old manager. */
  datatype Disposition = Leave | Demote(role: Role)

  function AfterTransfer(d: Disposition): Member {
    match d case Leave => Member(Manager, false) case Demote(role) => Member(role, true)
  }

  /** The checks of `transfer_board_manager` before its two transitions. */
  function TransferCheck(s: State, p: Place, target: nat, d: Disposition, reason: string,
      permitted: bool): Option<Refusal> {
    var heir := Place(p.board, target);
    if reason == "" then Some(NoReason)
    else if d.Demote? && d.role !in {Contributor, Editor, Reviewer} then Some(UnknownDisposition)
    else if p !in s.members then Some(Missing)
    else if s.members[p] != Member(Manager, true) then Some(NotManager)
    else if target !in s.users then Some(Missing)
    else if HasPending(s, p, None) || HasPending(s, heir, None) then Some(PendingRequest)
    else if target == p.user then Some(SelfTransfer)
    else if Lookup(s, heir) == Some(Member(Manager, true)) then Some(AlreadyManager)
    else if !permitted then Some(NotPermitted)
    else None
  }

  /** First half of a transfer: the heir becomes manager. */
  function Promotion(s: State, p: Place, target: nat, actor: nat): Result<State, Refusal> {
    Transition(s, Place(p.board, target), actor, Member(Manager, true), Dashboard, None, Some(ManagerTransferred))
  }

  /** Second half: the old manager steps down. */
  function StepDown(s: State, p: Place, d: Disposition, actor: nat): Result<State, Refusal> {
    Transition(s, p, actor, AfterTransfer(d), Dashboard, None, Some(ManagerTransferred))
  }

  /** `transfer_board_manager` */
  function Transfer(
    s: State, p: Place, target: nat, d: Disposition, actor: nat, reason: string, permitted: bool)
    : Result<State, Refusal>
  {
    match TransferCheck(s, p, target, d, reason, permitted)
    case Some(e) => Err(e)
    case None =>
      match Promotion(s, p, target, actor)
      case Err(e) => Err(e)
      case Ok(middle) => StepDown(middle, p, d, actor)
  }

  /** `break_glass_deactivate_last_manager`; `verified` is the complete super-admin context. */
  function BreakGlass(
    s: State, p: Place, actor: nat, reason: string, verified: bool, confirmed: bool, permitted: bool)
    : Result<State, Refusal>
  {
    if reason == "" then Err(NoReason)
    else if !verified || !UserActive(s, actor) || !IsSuperuser(s, actor) then Err(NotPermitted)
    else if p !in s.members then Err(Missing)
    else if !confirmed then Err(WrongConfirmation)
    else if s.members[p] != Member(Manager, true) then Err(NotManager)
    else if HasPending(s, p, None) then Err(PendingRequest)
    else if |ActiveManagers(s, p.board)| != 1 then Err(OtherManagers)
    else if !permitted then Err(NotPermitted)
    else Transition(s, p, actor, Member(Manager, false), SuperAdmin, None, None)
  }

  /** `can_manage_board_members` */
  predicate CanManageMembers(s: State, actor: nat, board: nat) {
    UserActive(s, actor) &&
    (IsSuperuser(s, actor) ||
     match Lookup(s, Place(board, actor))
     case None => false
     case Some(m) =>
         BoardActive(s, board) && AllowsBoardAction(Some(m.role), ManageBoardMembers, m.active, true, false))
  }

  /** `can_review_board_access_request` */
  predicate CanReview(s: State, actor: nat, r: Request) {
    UserActive(s, actor) && actor != r.place.user &&
    (IsSuperuser(s, actor) || (r.role in {Contributor, Editor, Reviewer} && CanManageMembers(s, actor, r.place.board)))
  }

  /** `submit_board_access_request` */
  function Submit(s: State, p: Place, role: Role, eligible: bool): Result<State, Refusal> {
    if !UserActive(s, p.user) || !eligible then Err(NotPermitted)
    else if !BoardActive(s, p.board) then Err(InactiveTarget)
    else if role.OtherRole? then Err(UnknownRole)
    else if Lookup(s, p) == Some(Member(role, true)) then Err(AlreadyHeld)
    else if HasPending(s, p, None) then Err(PendingRequest)
    else Ok(s.(requests := s.requests + [Request(p, role, Pending, None, None)]))
  }

  /** `decide_board_access_request` */
  function Decide(s: State, i: nat, actor: nat, approve: bool): Result<State, Refusal> {
    if i >= |s.requests| then Err(Missing)
    else
      var r := s.requests[i];
      var member := Lookup(s, r.place);
      if r.status != Pending then Err(AlreadyDecided)
      else if !CanReview(s, actor, r) then Err(NotPermitted)
      else if !IsSuperuser(s, actor) && member.Some? && (!member.value.active || member.value.role == Manager)
          then Err(NotPermitted)
      else
        var previousRole := if member.Some? then Some(member.value.role) else None;
        var decided := r.(status := if approve then Approved else Rejected, previousRole := previousRole,
            reviewer := Some(actor));
        if !approve then Ok(s.(requests := s.requests[i := decided]))
        else
          match Transition(s, r.place, actor, Member(r.role, true), FromRequest, Some(i), None)
          case Err(e) => Err(e)
          case Ok(t) => Ok(t.(requests := s.requests[i := decided]))
  }

  /** `withdraw_board_membership` */
  function Withdraw(s: State, p: Place, actor: nat): Result<State, Refusal> {
    if !UserActive(s, actor) then Err(NotPermitted)
    else if p !in s.members then Err(Missing)
    else if p.user != actor then Err(NotPermitted)
    else if !s.members[p].active then Err(NotActive)
    else if s.members[p].role == Manager then Err(NotPermitted)
    else Transition(s, p, actor, s.members[p].(active := false), SelfService, None, None)
  }

  /* ---------- The tables and the transactions on them ---------- */

  /** A transaction either leaves what `spec` says or rolls back and raises. */
  ghost predicate Settles(before: State, spec: Result<State, Refusal>, after: State, raised: Option<Refusal>) {
    match spec
    case Ok(s) => after == s && raised == None
    case Err(e) => after == before && raised == Some(e)
  }

  class Directory {
    var boards: map<nat, bool>
    var users: map<nat, Account>
    var members: map<Place, Member>
    var events: seq<Event>
    var requests: seq<Request>

    function Now(): State
      reads this
    {
      State(boards, users, members, events, requests)
    }

    constructor (initial: State)
      ensures Now() == initial
    {
      boards, users, members := initial.boards, initial.users, initial.members;
      events, requests := initial.events, initial.requests;
    }

    method Rollback(before: State)
      modifies this
      ensures Now() == before
    {
      boards, users, members := before.boards, before.users, before.members;
      events, requests := before.events, before.requests;
    }

    /** `_assert_manager_continuity` */
    method AssertManagerContinuity(p: Place, next: Member, source: Source) returns (raised: Option<Refusal>)
      ensures raised == if Continuous(Now(), p, next, source) then None else Some(LastManager)
    {
      var removes := p in members && members[p].active && members[p].role == Manager
          && (!next.active || next.role != Manager);
      if !removes || source == SuperAdmin {
        return None;
      }
      raised := if |ActiveManagers(Now(), p.board)| <= 1 then Some(LastManager) else None;
    }

    /** `_transition_board_membership`, inside its caller's transaction. */
    method ApplyTransition(
      p: Place, actor: nat, next: Member, source: Source, request: Option<nat>, override: Option<EventType>)
      returns (raised: Option<Refusal>)
      modifies this
      ensures Settles(old(Now()), Transition(old(Now()), p, actor, next, source, request, override), Now(), raised)
    {
      if next.role.OtherRole? { return Some(UnknownRole); }
      if next.active && (!BoardActive(Now(), p.board) || !UserActive(Now(), p.user)) { return Some(InactiveTarget); }
      if IsSuperuser(Now(), p.user) { return Some(SuperuserTarget); }
      if HasPending(Now(), p, request) { return Some(PendingRequest); }
      raised := AssertManagerContinuity(p, next, source);
      if raised.Some? { return; }
      var previous := Lookup(Now(), p);
      var kind;
      if override.Some? {
        kind := override.value;
      } else {
        var found := TransitionEventType(previous, next);
        if found.Err? { return Some(found.error); }
        kind := found.value;
      }
      members := members[p := next];
      events := events + [Event(p, kind, source, previous, next, actor, request)];
    }

    method TransferManager(p: Place, target: nat, d: Disposition, actor: nat, reason: string, permitted: bool)
      returns (raised: Option<Refusal>)
      modifies this
      ensures Settles(old(Now()), Transfer(old(Now()), p, target, d, actor, reason, permitted), Now(), raised)
    {
      hide Transition, HasPending, ActiveManagers;
      var before := Now();
      var heir := Place(p.board, target);
      if reason == "" { return Some(NoReason); }
      if d.Demote? && d.role !in {Contributor, Editor, Reviewer} { return Some(UnknownDisposition); }
      if p !in members { return Some(Missing); }
      var outgoing := members[p];
      if !outgoing.active || outgoing.role != Manager { return Some(NotManager); }
      if target !in users { return Some(Missing); }
      if HasPending(Now(), p, None) { return Some(PendingRequest); }
      if HasPending(Now(), heir, None) { return Some(PendingRequest); }
      if target == p.user { return Some(SelfTransfer); }
      if heir in members && members[heir].active && members[heir].role == Manager { return Some(AlreadyManager); }
      if !permitted { return Some(NotPermitted); }
      raised := ApplyTransition(heir, actor, Member(Manager, true), Dashboard, None, Some(ManagerTransferred));
      if raised.Some? { return; }
      var oldRole := if d.Leave? then outgoing.role else d.role;
      raised := ApplyTransition(p, actor, Member(oldRole, d.Demote?), Dashboard, None, Some(ManagerTransferred));
      if raised.Some? { Rollback(before); }
    }

    method DecideRequest(i: nat, actor: nat, approve: bool) returns (raised: Option<Refusal>)
      modifies this
      ensures Settles(old(Now()), Decide(old(Now()), i, actor, approve), Now(), raised)
    {
      hide Transition, HasPending, ActiveManagers, CanReview;
      if i >= |requests| { return Some(Missing); }
      var locked := requests[i];
      if locked.status != Pending { return Some(AlreadyDecided); }
      if !CanReview(Now(), actor, locked) { return Some(NotPermitted); }
      var member := Lookup(Now(), locked.place);
      if !IsSuperuser(Now(), actor) && member.Some? && (!member.value.active || member.value.role == Manager) {
        return Some(NotPermitted);
      }
      locked := locked.(previousRole := if member.Some? then Some(member.value.role) else None);
      if approve {
        KeepsRequests(Now(), locked.place, actor, Member(locked.role, true), FromRequest, Some(i), None);
        raised := ApplyTransition(locked.place, actor, Member(locked.role, true), FromRequest, Some(i), None);
        if raised.Some? { return; }
        locked := locked.(status := Approved);
      } else {
        locked := locked.(status := Rejected);
      }
      locked := locked.(reviewer := Some(actor));
      requests := requests[i := locked];
      raised := None;
    }

    method GrantMembership(p: Place, actor: nat, role: Role, reason: string, permitted: bool)
        returns (raised: Option<Refusal>)
      modifies this
      ensures Settles(old(Now()), Grant(old(Now()), p, actor, role, reason, permitted), Now(), raised)
    {
      hide Transition, HasPending;
      if reason == "" { return Some(NoReason); }
      if p.board !in boards || p.user !in users { return Some(Missing); }
      if HasPending(Now(), p, None) { return Some(PendingRequest); }
      if p in members { return Some(AlreadyMember); }
      if !permitted { return Some(NotPermitted); }
      raised := ApplyTransition(p, actor, Member(role, true), Dashboard, None, None);
    }

    method ChangeMembershipRole(p: Place, actor: nat, role: Role, reason: string, permitted: bool)
        returns (raised: Option<Refusal>)
      modifies this
      ensures Settles(old(Now()), ChangeRole(old(Now()), p, actor, role, reason, permitted), Now(), raised)
    {
      hide Transition, HasPending, Continuous;
      if reason == "" { return Some(NoReason); }
      if p !in members { return Some(Missing); }
      if !members[p].active { return Some(NotActive); }
      if HasPending(Now(), p, None) { return Some(PendingRequest); }
      if members[p].role == role { return Some(Unchanged); }
      raised := AssertManagerContinuity(p, Member(role, true), Dashboard);
      if raised.Some? { return; }
      if !permitted { return Some(NotPermitted); }
      raised := ApplyTransition(p, actor, Member(role, true), Dashboard, None, None);
    }

    method DeactivateMembership(p: Place, actor: nat, reason: string, permitted: bool) returns (raised: Option<Refusal>)
      modifies this
      ensures Settles(old(Now()), Deactivate(old(Now()), p, actor, reason, permitted), Now(), raised)
    {
      hide Transition, HasPending, Continuous;
      if reason == "" { return Some(NoReason); }
      if p !in members { return Some(Missing); }
      if !members[p].active { return Some(NotActive); }
      if HasPending(Now(), p, None) { return Some(PendingRequest); }
      var next := members[p].(active := false);
      raised := AssertManagerContinuity(p, next, Dashboard);
      if raised.Some? { return; }
      if !permitted { return Some(NotPermitted); }
      raised := ApplyTransition(p, actor, next, Dashboard, None, None);
    }

    method ReactivateMembership(p: Place, actor: nat, role: Role, reason: string, permitted: bool)
        returns (raised: Option<Refusal>)
      modifies this
      ensures Settles(old(Now()), Reactivate(old(Now()), p, actor, role, reason, permitted), Now(), raised)
    {
      hide Transition, HasPending;
      if reason == "" { return Some(NoReason); }
      if p !in members { return Some(Missing); }
      if members[p].active { return Some(StillActive); }
      if HasPending(Now(), p, None) { return Some(PendingRequest); }
      if !permitted { return Some(NotPermitted); }
      raised := ApplyTransition(p, actor, Member(role, true), Dashboard, None, None);
    }

    method BreakGlassDeactivate(p: Place, actor: nat, reason: string, verified: bool, confirmed: bool, permitted: bool)
      returns (raised: Option<Refusal>)
      modifies this
      ensures Settles(old(Now()), BreakGlass(old(Now()), p, actor, reason, verified, confirmed, permitted), Now(),
          raised)
    {
      hide Transition, HasPending;
      if reason == "" { return Some(NoReason); }
      if !verified || !UserActive(Now(), actor) || !IsSuperuser(Now(), actor) { return Some(NotPermitted); }
      if p !in members { return Some(Missing); }
      if !confirmed { return Some(WrongConfirmation); }
      if !members[p].active || members[p].role != Manager { return Some(NotManager); }
      if HasPending(Now(), p, None) { return Some(PendingRequest); }
      if |ActiveManagers(Now(), p.board)| != 1 { return Some(OtherManagers); }
      if !permitted { return Some(NotPermitted); }
      raised := ApplyTransition(p, actor, members[p].(active := false), SuperAdmin, None, None);
    }

    method WithdrawMembership(p: Place, actor: nat) returns (raised: Option<Refusal>)
      modifies this
      ensures Settles(old(Now()), Withdraw(old(Now()), p, actor), Now(), raised)
    {
      hide Transition;
      if !UserActive(Now(), actor) { return Some(NotPermitted); }
      if p !in members { return Some(Missing); }
      if p.user != actor { return Some(NotPermitted); }
      if !members[p].active { return Some(NotActive); }
      if members[p].role == Manager { return Some(NotPermitted); }
      raised := ApplyTransition(p, actor, members[p].(active := false), SelfService, None, None);
    }
  }

  /** A transition leaves requests, boards and users alone. */
  lemma KeepsRequests(
      s: State, p: Place, actor: nat, next: Member, source: Source, request: Option<nat>, override: Option<EventType>)
    ensures var r := Transition(s, p, actor, next, source, request, override);
            r.Ok? ==> r.value.requests == s.requests && r.value.boards == s.boards && r.value.users == s.users
  {
    hide HasPending, Continuous;
  }
}
