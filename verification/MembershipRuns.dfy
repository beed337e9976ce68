/** What membership operations keep, one by one and over whole runs. */
module MembershipRuns {
  import opened Prelude
  import opened AccessRules
  import opened Membership

  /** One transaction, or a change of a board or an account made elsewhere. */
  datatype Step =
    | GrantStep(p: Place, actor: nat, role: Role, reason: string, permitted: bool)
    | ChangeStep(p: Place, actor: nat, role: Role, reason: string, permitted: bool)
    | DeactivateStep(p: Place, actor: nat, reason: string, permitted: bool)
    | ReactivateStep(p: Place, actor: nat, role: Role, reason: string, permitted: bool)
    | TransferStep(p: Place, target: nat, d: Disposition, actor: nat, reason: string, permitted: bool)
    | BreakGlassStep(p: Place, actor: nat, reason: string, verified: bool, confirmed: bool, permitted: bool)
    | SubmitStep(p: Place, role: Role, eligible: bool)
    | DecideStep(i: nat, actor: nat, approve: bool)
    | WithdrawStep(p: Place, actor: nat)
    | SetBoard(board: nat, active: bool)
    | SetUser(user: nat, account: Account)

  function Perform(s: State, step: Step): Result<State, Refusal> {
    match step
    case GrantStep(p, actor, role, reason, permitted) => Grant(s, p, actor, role, reason, permitted)
    case ChangeStep(p, actor, role, reason, permitted) => ChangeRole(s, p, actor, role, reason, permitted)
    case DeactivateStep(p, actor, reason, permitted) => Deactivate(s, p, actor, reason, permitted)
    case ReactivateStep(p, actor, role, reason, permitted) => Reactivate(s, p, actor, role, reason, permitted)
    case TransferStep(p, target, d, actor, reason, permitted) => Transfer(s, p, target, d, actor, reason, permitted)
    case BreakGlassStep(p, actor, reason, verified, confirmed, permitted) =>
      BreakGlass(s, p, actor, reason, verified, confirmed, permitted)
    case SubmitStep(p, role, eligible) => Submit(s, p, role, eligible)
    case DecideStep(i, actor, approve) => Decide(s, i, actor, approve)
    case WithdrawStep(p, actor) => Withdraw(s, p, actor)
    case SetBoard(board, active) => Ok(s.(boards := s.boards[board := active]))
    case SetUser(user, account) => Ok(s.(users := s.users[user := account]))
  }

  /** A refused operation rolls back. */
  function Apply(s: State, step: Step): State {
    match Perform(s, step) case Ok(t) => t case Err(_) => s
  }

  function Run(s: State, steps: seq<Step>): State {
    if steps == [] then s else Apply(Run(s, steps[..|steps| - 1]), steps[|steps| - 1])
  }

  const EMPTY := State(map[], map[], map[], [], [])

  /* ---------- The event log ---------- */

  /** The memberships that a log of events amounts to. */
  function Replay(events: seq<Event>): map<Place, Member> {
    if events == [] then map[]
    else
      var last := events[|events| - 1];
      Replay(events[..|events| - 1])[last.place := last.next]
  }

  function Before(events: seq<Event>, p: Place): Option<Member> {
    if p in Replay(events) then Some(Replay(events)[p]) else None
  }

  /** The event records a change, from the state its predecessors left; leaving keeps the role. */
  predicate Truthful(events: seq<Event>, i: nat)
    requires i < |events|
  {
    var e := events[i];
    && e.previous == Before(events[..i], e.place)
    && e.previous != Some(e.next)
    && !e.next.role.OtherRole?
    && (!e.next.active ==> e.previous == Some(Member(e.next.role, true)))
    && (e.eventType != ManagerTransferred ==> TransitionEventType(e.previous, e.next) == Ok(e.eventType))
    && (e.previous == None ==> e.eventType in {Granted, ManagerTransferred} && e.next.active)
  }

  /** The log tells the whole story of every row. */
  ghost predicate LogOk(s: State) {
    && s.members == Replay(s.events)
    && forall i :: 0 <= i < |s.events| ==> Truthful(s.events, i)
  }

  lemma Appended(events: seq<Event>, e: Event, i: nat)
    requires i <= |events|
    ensures (events + [e])[..i] == events[..i]
    ensures Replay(events + [e]) == Replay(events)[e.place := e.next]
  {
    assert (events + [e])[..|events|] == events;
  }

  /**
   A transition keeps the log, provided a deactivation keeps the role of an active member and an
   overridden event is a change; the operations see to both.
   */
  lemma TransitionKeepsLog(
      s: State, p: Place, actor: nat, next: Member, source: Source, request: Option<nat>, override: Option<EventType>)
    requires LogOk(s)
    requires !next.active ==> Lookup(s, p) == Some(Member(next.role, true))
    requires override.Some? ==> override == Some(ManagerTransferred) && Lookup(s, p) != Some(next)
    ensures var r := Transition(s, p, actor, next, source, request, override); r.Ok? ==> LogOk(r.value)
  {
    hide HasPending, Continuous, Replay;
    var r := Transition(s, p, actor, next, source, request, override);
    if r.Ok? {
      var e := r.value.events[|s.events|];
      Appended(s.events, e, |s.events|);
      forall i | 0 <= i < |r.value.events| ensures Truthful(r.value.events, i) {
        if i < |s.events| {
          Appended(s.events, e, i);
          assert Truthful(s.events, i);
        } else {
          assert r.value.events[..i] == s.events;
        }
      }
    }
  }

  /* ---------- Conditions in terms of the rows ---------- */

  /** No request of this user for this board waits. */
  ghost predicate NoneWaiting(s: State, p: Place) {
    forall i :: 0 <= i < |s.requests| ==> !(s.requests[i].place == p && s.requests[i].status == Pending)
  }

  ghost predicate Superuser(s: State, user: nat) {
    user in s.users && s.users[user].superuser
  }

  ghost predicate ActiveAccount(s: State, user: nat) {
    user in s.users && s.users[user].active
  }

  ghost predicate ActiveManager(s: State, p: Place) {
    p in s.members && s.members[p].role == Manager && s.members[p].active
  }

  ghost predicate ActiveBoard(s: State, board: nat) {
    board in s.boards && s.boards[board]
  }

  function Current(s: State, p: Place): Option<Member> {
    if p in s.members then Some(s.members[p]) else None
  }

  /** What every transition to an active state needs, but for waiting requests. */
  ghost predicate Admissible(s: State, p: Place, role: Role) {
    !role.OtherRole? && ActiveBoard(s, p.board) && ActiveAccount(s, p.user) && !Superuser(s, p.user)
  }

  ghost predicate MayBeActive(s: State, p: Place, role: Role) {
    Admissible(s, p, role) && NoneWaiting(s, p)
  }

  /** The row is not its board's last active manager. */
  ghost predicate NotTheLast(s: State, p: Place) {
    ActiveManager(s, p) ==> exists q: Place :: q != p && q.board == p.board && ActiveManager(s, q)
  }

  lemma ManagersAreMany(s: State, p: Place)
    requires ActiveManager(s, p)
    ensures |ActiveManagers(s, p.board)| > 1 <==> exists q: Place :: q != p && q.board == p.board && ActiveManager(s, q)
  {
    if |ActiveManagers(s, p.board)| > 1 {
      AnotherManager(s, p);
    }
    if q: Place :| q != p && q.board == p.board && ActiveManager(s, q) {
      TwoManagers(s, p, q);
    }
  }

  /** The conditions of the operations say the same. */
  lemma SameConditions(s: State, p: Place)
    ensures NoneWaiting(s, p) <==> !HasPending(s, p, None)
    ensures NotTheLast(s, p) <==> (Lookup(s, p) == Some(Member(Manager, true)) ==> |ActiveManagers(s, p.board)| > 1)
  {
    hide ActiveManagers;
    if ActiveManager(s, p) { ManagersAreMany(s, p); }
  }

  /* ---------- Managers ---------- */

  ghost predicate HasManager(s: State, board: nat) {
    exists p: Place :: p.board == board && Lookup(s, p) == Some(Member(Manager, true))
  }

  lemma AnotherManager(s: State, p: Place)
    requires |ActiveManagers(s, p.board)| > 1
    ensures exists q: Place :: q != p && q.board == p.board && Lookup(s, q) == Some(Member(Manager, true))
  {
    var rest := ActiveManagers(s, p.board) - {p};
    assert |rest| > 0;
    var q :| q in rest;
    assert q.board == p.board && Lookup(s, q) == Some(Member(Manager, true));
  }

  /** Outside break-glass, a transition leaves every board that had an active manager with one. */
  lemma TransitionKeepsManagers(
      s: State, p: Place, actor: nat, next: Member, source: Source, request: Option<nat>,
          override: Option<EventType>, board: nat)
    requires source != SuperAdmin && HasManager(s, board)
    ensures var r := Transition(s, p, actor, next, source, request, override); r.Ok? ==> HasManager(r.value, board)
  {
    hide HasPending, ActiveManagers, TransitionEventType;
    var r := Transition(s, p, actor, next, source, request, override);
    if r.Ok? {
      var q: Place :| q.board == board && Lookup(s, q) == Some(Member(Manager, true));
      if q == p && next != Member(Manager, true) {
        AnotherManager(s, p);
        var other: Place :| other != p && other.board == board && Lookup(s, other) == Some(Member(Manager, true));
        assert Lookup(r.value, other) == Some(Member(Manager, true));
      } else {
        assert Lookup(r.value, q) == Some(Member(Manager, true));
      }
    }
  }

  /**
   Once the heir is promoted, the old manager's step down meets no other obstacle than that
   account itself: never the continuity check. It fails exactly when the old manager has become a
   superuser, or keeps a role although the account is inactive; the whole transfer then rolls back.
   */
  lemma StepDownFailsOnlyForTheAccount(s: State, p: Place, target: nat, d: Disposition, actor: nat, reason: string,
      permitted: bool)
    requires TransferCheck(s, p, target, d, reason, permitted) == None && Promotion(s, p, target, actor).Ok?
    ensures var second := StepDown(Promotion(s, p, target, actor).value, p, d, actor);
            && (second.Err? <==> IsSuperuser(s, p.user) || (d.Demote? && !UserActive(s, p.user)))
            && (second.Err? ==> second.error in {SuperuserTarget, InactiveTarget})
            && (second.Ok? ==> Lookup(second.value, Place(p.board, target)) == Some(Member(Manager, true))
                               && Lookup(second.value, p) == Some(AfterTransfer(d)))
  {
    hide ActiveManagers;
    var heir := Place(p.board, target);
    var middle := Promotion(s, p, target, actor).value;
    TwoManagers(middle, p, heir);
  }

  /** What the old manager becomes. */
  function Retired(d: Disposition): Member {
    match d
    case Leave => Member(Manager, false)
    case Demote(role) => Member(role, true)
  }

  /**
   A transfer succeeds if and only if it is permitted and has a reason; the row is an active manager
   who is no superuser; the heir is another active user, no superuser, and no active manager of this
   active board; neither has a request waiting; and an old manager who keeps a role below manager has
   an active account. Then the heir is manager and the old manager retired, two events say so, the
   heir's first, and nothing else has changed.
   */
  lemma TransferMeaning(s: State, p: Place, target: nat, d: Disposition, actor: nat, reason: string, permitted: bool)
    ensures var r, heir := Transfer(s, p, target, d, actor, reason, permitted), Place(p.board, target);
            && (r.Ok? <==>
                  && reason != "" && permitted && ActiveManager(s, p) && !Superuser(s, p.user)
                  && target != p.user && MayBeActive(s, heir, Manager) && !ActiveManager(s, heir) && NoneWaiting(s, p)
                  && (d.Demote? ==> d.role in {Contributor, Editor, Reviewer} && ActiveAccount(s, p.user)))
            && (r.Ok? ==> r.value == s.(
                  members := s.members[heir := Member(Manager, true)][p := Retired(d)],
                  events := s.events + [
                    Event(heir, ManagerTransferred, Dashboard, Current(s, heir), Member(Manager, true), actor, None),
                    Event(p, ManagerTransferred, Dashboard, Some(Member(Manager, true)), Retired(d), actor, None)]))
  {
    hide HasPending, ActiveManagers, NoneWaiting;
    var heir := Place(p.board, target);
    SameConditions(s, p);
    SameConditions(s, heir);
    if TransferCheck(s, p, target, d, reason, permitted) == None && Promotion(s, p, target, actor).Ok? {
      var middle := Promotion(s, p, target, actor).value;
      TwoManagers(middle, p, heir);
      SamePending(s, middle, p);
    }
  }

  lemma SamePending(s: State, t: State, p: Place)
    requires t.requests == s.requests
    ensures HasPending(t, p, None) <==> HasPending(s, p, None)
  {
  }

  lemma TwoManagers(s: State, p: Place, q: Place)
    requires p != q && p.board == q.board
    requires Lookup(s, p) == Some(Member(Manager, true)) && Lookup(s, q) == Some(Member(Manager, true))
    ensures |ActiveManagers(s, p.board)| > 1
  {
    var both := {p, q};
    assert both <= ActiveManagers(s, p.board);
    assert |ActiveManagers(s, p.board) - both| + |both| == |ActiveManagers(s, p.board)| by {
      assert ActiveManagers(s, p.board) == (ActiveManagers(s, p.board) - both) + both;
    }
  }

  /** Exactly one row changes, to what was asked, and one event says so. */
  ghost predicate OneChange(s: State, t: State, p: Place, next: Member, source: Source, actor: nat) {
    && t.members == s.members[p := next]
    && |t.events| == |s.events| + 1 && t.events[..|s.events|] == s.events
    && (var e := t.events[|s.events|];
        && e.place == p && e.previous == Current(s, p) && e.next == next && e.source == source
        && e.actor == actor && e.request == None)
    && t.boards == s.boards && t.users == s.users && t.requests == s.requests
  }

  /** Nobody else is an active manager of the board. */
  ghost predicate OnlyManager(s: State, p: Place) {
    ActiveManager(s, p) && forall q: Place :: q.board == p.board && ActiveManager(s, q) ==> q == p
  }

  lemma OneManager(s: State, p: Place)
    ensures OnlyManager(s, p) <==> Lookup(s, p) == Some(Member(Manager, true)) && |ActiveManagers(s, p.board)| == 1
  {
    var managers := ActiveManagers(s, p.board);
    if OnlyManager(s, p) {
      assert managers == {p};
    } else if ActiveManager(s, p) {
      var q: Place :| q.board == p.board && ActiveManager(s, q) && q != p;
      TwoManagers(s, p, q);
    }
  }

  /**
   Break-glass succeeds if and only if a verified, active superuser gives a reason, the confirmation
   and the capability for the one active manager of a board, who is no superuser and has no request
   waiting; it takes exactly that one, and touches no other row.
   */
  lemma BreakGlassTakesTheLast(s: State, p: Place, actor: nat, reason: string, verified: bool, confirmed: bool,
      permitted: bool)
    ensures var r := BreakGlass(s, p, actor, reason, verified, confirmed, permitted);
            && (r.Ok? <==> reason != "" && verified && confirmed && permitted
                           && ActiveAccount(s, actor) && Superuser(s, actor)
                           && OnlyManager(s, p) && !Superuser(s, p.user) && NoneWaiting(s, p))
            && (r.Ok? ==> OneChange(s, r.value, p, Member(Manager, false), SuperAdmin, actor)
                          && r.value.events[|s.events|].eventType == Deactivated && !HasManager(r.value, p.board))
  {
    hide HasPending, ActiveManagers, NoneWaiting, OnlyManager, HasManager;
    SameConditions(s, p);
    OneManager(s, p);
    var r := BreakGlass(s, p, actor, reason, verified, confirmed, permitted);
    if r.Ok? { NoManagerLeft(s, p, r.value); }
  }

  lemma NoManagerLeft(s: State, p: Place, t: State)
    requires OnlyManager(s, p) && t.members == s.members[p := Member(Manager, false)]
    ensures !HasManager(t, p.board)
  {
    forall q: Place | q.board == p.board ensures Lookup(t, q) != Some(Member(Manager, true)) {
      assert ActiveManager(s, q) ==> q == p;
    }
  }

  /* ---------- Requests ---------- */

  ghost predicate OnePending(s: State) {
    forall i, j :: 0 <= i < j < |s.requests| && s.requests[i].status == Pending && s.requests[j].status == Pending ==>
      s.requests[i].place != s.requests[j].place
  }

  /** A decided request is final; requests are never removed. */
  ghost predicate RequestsKept(s: State, t: State) {
    && |s.requests| <= |t.requests|
    && forall i :: 0 <= i < |s.requests| ==>
         t.requests[i].place == s.requests[i].place && t.requests[i].role == s.requests[i].role
         && (s.requests[i].status != Pending ==> t.requests[i] == s.requests[i])
  }

  /** No member yet, or an active one below manager. */
  ghost predicate InGoodStanding(s: State, p: Place) {
    p in s.members ==> s.members[p].active && s.members[p].role != Manager
  }

  /** Whoever may decide: a superuser, or for roles below manager an active manager of the active board. */
  ghost predicate MayDecide(s: State, actor: nat, r: Request) {
    && ActiveAccount(s, actor) && actor != r.place.user
    && (Superuser(s, actor) ||
        (r.role in {Contributor, Editor, Reviewer} && ActiveBoard(s, r.place.board)
         && ActiveManager(s, Place(r.place.board, actor)) && InGoodStanding(s, r.place)))
  }

  /** No other request of the same user for the same board waits. */
  ghost predicate NoOtherWaiting(s: State, i: nat)
    requires i < |s.requests|
  {
    forall j :: 0 <= j < |s.requests| && j != i ==>
      !(s.requests[j].place == s.requests[i].place && s.requests[j].status == Pending)
  }

  /** Approving changes something, and takes no board's last manager. */
  ghost predicate MayBeApproved(s: State, r: Request) {
    && Admissible(s, r.place, r.role) && Current(s, r.place) != Some(Member(r.role, true))
    && (r.role == Manager || NotTheLast(s, r.place))
  }

  /** How a decided request reads. */
  function DecidedRequest(s: State, r: Request, actor: nat, approve: bool): Request {
    Request(r.place, r.role, if approve then Approved else Rejected,
            if r.place in s.members then Some(s.members[r.place].role) else None, Some(actor))
  }

  function ChangeOf(current: Option<Member>): EventType {
    match current
    case None => Granted
    case Some(m) => if m.active then RoleChanged else Reactivated
  }

  lemma NoOtherPending(s: State, i: nat)
    requires i < |s.requests|
    ensures NoOtherWaiting(s, i) <==> !HasPending(s, s.requests[i].place, Some(i))
  {
  }

  /**
   A decision succeeds if and only if the request is pending, the actor may decide it, and, for an
   approval, it can be carried out. Approval puts the applicant in the requested role and says so in
   one event that names the request; rejection changes no row; nothing else changes.
   */
  lemma DecisionMeaning(s: State, i: nat, actor: nat, approve: bool)
    ensures var r := Decide(s, i, actor, approve);
            && (r.Ok? <==>
                  && i < |s.requests| && s.requests[i].status == Pending && MayDecide(s, actor, s.requests[i])
                  && (approve ==> MayBeApproved(s, s.requests[i]) && NoOtherWaiting(s, i)))
            && (r.Ok? ==>
                  var request, t := s.requests[i], r.value;
                  && t.requests == s.requests[i := DecidedRequest(s, request, actor, approve)]
                  && t.boards == s.boards && t.users == s.users
                  && if !approve then t.members == s.members && t.events == s.events
                     else
                       && t.members == s.members[request.place := Member(request.role, true)]
                       && t.events == s.events + [
                            Event(request.place, ChangeOf(Current(s, request.place)), FromRequest,
                                  Current(s, request.place), Member(request.role, true), actor, Some(i))])
  {
    hide HasPending, ActiveManagers, NotTheLast, NoOtherWaiting;
    if i < |s.requests| {
      SameConditions(s, s.requests[i].place);
      NoOtherPending(s, i);
    }
  }

  /**
   A request is filed if and only if its active, eligible applicant asks an active board for a known
   role not held already and has none waiting there; it is for that role and pending.
   */
  lemma SubmissionMeaning(s: State, p: Place, role: Role, eligible: bool)
    ensures var r := Submit(s, p, role, eligible);
            && (r.Ok? <==> ActiveAccount(s, p.user) && eligible && ActiveBoard(s, p.board) && !role.OtherRole?
                           && Current(s, p) != Some(Member(role, true)) && NoneWaiting(s, p))
            && (r.Ok? ==> r.value == s.(requests := s.requests + [Request(p, role, Pending, None, None)]))
  {
    hide HasPending, NoneWaiting;
    SameConditions(s, p);
  }

  /* ---------- What each operation asks for and does ---------- */

  /**
   A grant succeeds exactly for a permitted actor, with a reason, on a pair that has no row yet,
   and makes that row.
   */
  lemma GrantMeaning(s: State, p: Place, actor: nat, role: Role, reason: string, permitted: bool)
    ensures var r := Grant(s, p, actor, role, reason, permitted);
            && (r.Ok? <==> reason != "" && permitted && p !in s.members && MayBeActive(s, p, role))
            && (r.Ok? ==> OneChange(s, r.value, p, Member(role, true), Dashboard, actor)
                          && r.value.events[|s.events|].eventType == Granted)
  {
    hide HasPending, ActiveManagers, NotTheLast, NoneWaiting;
    SameConditions(s, p);
  }

  /** A role change succeeds exactly on an active member with another role who is not the last manager. */
  lemma ChangeMeaning(s: State, p: Place, actor: nat, role: Role, reason: string, permitted: bool)
    ensures var r := ChangeRole(s, p, actor, role, reason, permitted);
            && (r.Ok? <==>
                 reason != "" && permitted && p in s.members && s.members[p].active && s.members[p].role != role
                           && NotTheLast(s, p) && MayBeActive(s, p, role))
            && (r.Ok? ==> OneChange(s, r.value, p, Member(role, true), Dashboard, actor)
                          && r.value.events[|s.events|].eventType == RoleChanged)
  {
    hide HasPending, ActiveManagers, NotTheLast, NoneWaiting;
    SameConditions(s, p);
  }

  /** A deactivation succeeds exactly on an active member who is not the last manager, and keeps the role. */
  lemma DeactivateMeaning(s: State, p: Place, actor: nat, reason: string, permitted: bool)
    ensures var r := Deactivate(s, p, actor, reason, permitted);
            && (r.Ok? <==> reason != "" && permitted && p in s.members && s.members[p].active && NotTheLast(s, p)
                           && !s.members[p].role.OtherRole? && !Superuser(s, p.user) && NoneWaiting(s, p))
            && (r.Ok? ==> OneChange(s, r.value, p, Member(s.members[p].role, false), Dashboard, actor)
                          && r.value.events[|s.events|].eventType == Deactivated)
  {
    hide HasPending, ActiveManagers, NotTheLast, NoneWaiting;
    SameConditions(s, p);
  }

  /** A reactivation succeeds exactly on an inactive member, in the role asked for. */
  lemma ReactivateMeaning(s: State, p: Place, actor: nat, role: Role, reason: string, permitted: bool)
    ensures var r := Reactivate(s, p, actor, role, reason, permitted);
            && (r.Ok? <==>
                 reason != "" && permitted && p in s.members && !s.members[p].active && MayBeActive(s, p, role))
            && (r.Ok? ==> OneChange(s, r.value, p, Member(role, true), Dashboard, actor)
                          && r.value.events[|s.events|].eventType == Reactivated)
  {
    hide HasPending, ActiveManagers, NotTheLast, NoneWaiting;
    SameConditions(s, p);
  }

  /** Members leave by themselves exactly from an active role below manager. */
  lemma WithdrawMeaning(s: State, p: Place, actor: nat)
    ensures var r := Withdraw(s, p, actor);
            && (r.Ok? <==> p.user == actor && ActiveAccount(s, actor) && p in s.members && s.members[p].active
                           && s.members[p].role in {Contributor, Editor, Reviewer}
                           && !Superuser(s, actor) && NoneWaiting(s, p))
            && (r.Ok? ==> OneChange(s, r.value, p, Member(s.members[p].role, false), SelfService, actor)
                          && r.value.events[|s.events|].eventType == Deactivated)
  {
    hide HasPending, ActiveManagers, NotTheLast, NoneWaiting;
    SameConditions(s, p);
  }

  /* ---------- Every step ---------- */

  lemma TransferKeepsLog(s: State, p: Place, target: nat, d: Disposition, actor: nat, reason: string, permitted: bool)
    requires LogOk(s)
    ensures var r := Transfer(s, p, target, d, actor, reason, permitted); r.Ok? ==> LogOk(r.value)
  {
    hide LogOk, HasPending, Continuous;
    if TransferCheck(s, p, target, d, reason, permitted) == None && Promotion(s, p, target, actor).Ok? {
      var heir := Place(p.board, target);
      TransitionKeepsLog(s, heir, actor, Member(Manager, true), Dashboard, None, Some(ManagerTransferred));
      var middle := Promotion(s, p, target, actor).value;
      assert Lookup(middle, p) == Lookup(s, p) == Some(Member(Manager, true));
      TransitionKeepsLog(middle, p, actor, AfterTransfer(d), Dashboard, None, Some(ManagerTransferred));
    }
  }

  lemma DecideKeepsLog(s: State, i: nat, actor: nat, approve: bool)
    requires LogOk(s)
    ensures var r := Decide(s, i, actor, approve); r.Ok? ==> LogOk(r.value)
  {
    hide HasPending, Continuous, Transition, Truthful, Replay, CanReview;
    if i < |s.requests| {
      var request := s.requests[i];
      TransitionKeepsLog(s, request.place, actor, Member(request.role, true), FromRequest, Some(i), None);
    }
  }

  lemma StepKeepsLog(s: State, step: Step)
    requires LogOk(s)
    ensures LogOk(Apply(s, step))
  {
    hide LogOk, HasPending, Continuous, Transition, Transfer, Decide, ActiveManagers;
    match step
    case GrantStep(p, actor, role, reason, permitted) =>
        TransitionKeepsLog(s, p, actor, Member(role, true), Dashboard, None, None);
    case ChangeStep(p, actor, role, reason, permitted) =>
        TransitionKeepsLog(s, p, actor, Member(role, true), Dashboard, None, None);
    case DeactivateStep(p, actor, reason, permitted) =>
      if p in s.members && s.members[p].active {
        TransitionKeepsLog(s, p, actor, s.members[p].(active := false), Dashboard, None, None);
      }
    case ReactivateStep(p, actor, role, reason, permitted) =>
      TransitionKeepsLog(s, p, actor, Member(role, true), Dashboard, None, None);
    case TransferStep(p, target, d, actor, reason, permitted) =>
        TransferKeepsLog(s, p, target, d, actor, reason, permitted);
    case BreakGlassStep(p, actor, reason, verified, confirmed, permitted) =>
      if p in s.members && s.members[p] == Member(Manager, true) {
        TransitionKeepsLog(s, p, actor, Member(Manager, false), SuperAdmin, None, None);
      }
    case SubmitStep(p, role, eligible) => SameLog(s, Apply(s, step));
    case DecideStep(i, actor, approve) => DecideKeepsLog(s, i, actor, approve);
    case WithdrawStep(p, actor) =>
      if p in s.members && s.members[p].active {
        TransitionKeepsLog(s, p, actor, s.members[p].(active := false), SelfService, None, None);
      }
    case SetBoard(board, active) => SameLog(s, Apply(s, step));
    case SetUser(user, account) => SameLog(s, Apply(s, step));
  }

  lemma SameLog(s: State, t: State)
    requires LogOk(s) && t.members == s.members && t.events == s.events
    ensures LogOk(t)
  {
  }

  lemma SameMembers(s: State, t: State, board: nat)
    requires HasManager(s, board) && t.members == s.members
    ensures HasManager(t, board)
  {
    var p: Place :| p.board == board && Lookup(s, p) == Some(Member(Manager, true));
    assert Lookup(t, p) == Some(Member(Manager, true));
  }

  /** No step but a break-glass on that very board takes a board's last active manager. */
  lemma StepKeepsManagers(s: State, step: Step, board: nat)
    requires HasManager(s, board)
    requires !(step.BreakGlassStep? && step.p.board == board && Perform(s, step).Ok?)
    ensures HasManager(Apply(s, step), board)
  {
    hide HasManager, HasPending, Continuous, Transition, ActiveManagers, CanReview;
    match step
    case GrantStep(p, actor, role, reason, permitted) =>
      TransitionKeepsManagers(s, p, actor, Member(role, true), Dashboard, None, None, board);
    case ChangeStep(p, actor, role, reason, permitted) =>
      TransitionKeepsManagers(s, p, actor, Member(role, true), Dashboard, None, None, board);
    case DeactivateStep(p, actor, reason, permitted) =>
      if p in s.members { TransitionKeepsManagers(s, p, actor, s.members[p].(active := false), Dashboard, None, None,
          board); }
    case ReactivateStep(p, actor, role, reason, permitted) =>
      TransitionKeepsManagers(s, p, actor, Member(role, true), Dashboard, None, None, board);
    case TransferStep(p, target, d, actor, reason, permitted) =>
      TransitionKeepsManagers(s, Place(p.board, target), actor, Member(Manager, true), Dashboard, None,
          Some(ManagerTransferred), board);
      if Promotion(s, p, target, actor).Ok? {
        var middle := Promotion(s, p, target, actor).value;
        TransitionKeepsManagers(middle, p, actor, AfterTransfer(d), Dashboard, None, Some(ManagerTransferred), board);
      }
    case BreakGlassStep(p, actor, reason, verified, confirmed, permitted) =>
      if Perform(s, step).Ok? {
        OtherBoard(s, Apply(s, step), p, board) by {
          BreakGlassTakesTheLast(s, p, actor, reason, verified, confirmed, permitted);
        }
      }
    case SubmitStep(p, role, eligible) => SameMembers(s, Apply(s, step), board);
    case DecideStep(i, actor, approve) =>
      if i < |s.requests| {
        var r := s.requests[i];
        TransitionKeepsManagers(s, r.place, actor, Member(r.role, true), FromRequest, Some(i), None, board);
        DecideKeepsManagers(s, i, actor, approve, board);
      }
    case WithdrawStep(p, actor) =>
      if p in s.members { TransitionKeepsManagers(s, p, actor, s.members[p].(active := false), SelfService, None,
          None, board); }
    case SetBoard(b, active) => SameMembers(s, Apply(s, step), board);
    case SetUser(user, account) => SameMembers(s, Apply(s, step), board);
  }

  lemma OtherBoard(s: State, t: State, p: Place, board: nat)
    requires HasManager(s, board) && p.board != board && forall q :: q != p ==> Lookup(t, q) == Lookup(s, q)
    ensures HasManager(t, board)
  {
    var q: Place :| q.board == board && Lookup(s, q) == Some(Member(Manager, true));
    assert Lookup(t, q) == Some(Member(Manager, true));
  }

  lemma DecideKeepsManagers(s: State, i: nat, actor: nat, approve: bool, board: nat)
    requires HasManager(s, board) && i < |s.requests|
    requires var r := Transition(s, s.requests[i].place, actor, Member(s.requests[i].role, true), FromRequest,
      Some(i), None);
             r.Ok? ==> HasManager(r.value, board)
    ensures var r := Decide(s, i, actor, approve); r.Ok? ==> HasManager(r.value, board)
  {
    hide HasManager, Transition, CanReview;
    var r := Transition(s, s.requests[i].place, actor, Member(s.requests[i].role, true), FromRequest, Some(i), None);
    var d := Decide(s, i, actor, approve);
    if d.Ok? {
      SameMembers(if approve then r.value else s, d.value, board);
    }
  }

  lemma RequestsUntouched(s: State, t: State)
    requires OnePending(s) && t.requests == s.requests
    ensures OnePending(t) && RequestsKept(s, t)
  {
  }

  lemma DecideKeepsRequests(s: State, i: nat, actor: nat, approve: bool)
    requires OnePending(s) && Decide(s, i, actor, approve).Ok?
    ensures var t := Decide(s, i, actor, approve).value; OnePending(t) && RequestsKept(s, t)
  {
    hide HasPending, Continuous, CanReview, Transition;
  }

  lemma SubmitKeepsRequests(s: State, p: Place, role: Role, eligible: bool)
    requires OnePending(s) && Submit(s, p, role, eligible).Ok?
    ensures var t := Submit(s, p, role, eligible).value; OnePending(t) && RequestsKept(s, t)
  {
  }

  /** At most one request per applicant and board waits, and a decision is never revised. */
  lemma StepKeepsRequests(s: State, step: Step)
    requires OnePending(s)
    ensures OnePending(Apply(s, step)) && RequestsKept(s, Apply(s, step))
  {
    hide OnePending, RequestsKept, HasPending, Continuous, Transition, ActiveManagers, CanReview, Decide, Submit;
    match step
    case DecideStep(i, actor, approve) =>
      if Perform(s, step).Ok? { DecideKeepsRequests(s, i, actor, approve); } else { RequestsUntouched(s, s); }
    case SubmitStep(p, role, eligible) =>
      if Perform(s, step).Ok? { SubmitKeepsRequests(s, p, role, eligible); } else { RequestsUntouched(s, s); }
    case _ =>
      OthersKeepRequests(s, step);
      RequestsUntouched(s, Apply(s, step));
  }

  lemma OthersKeepRequests(s: State, step: Step)
    ensures step.DecideStep? || step.SubmitStep? || Apply(s, step).requests == s.requests
  {
    hide HasPending, Continuous, Transition, ActiveManagers, CanReview, Decide, Submit;
    match step
    case GrantStep(p, actor, role, _, _) => KeepsRequests(s, p, actor, Member(role, true), Dashboard, None, None);
    case ChangeStep(p, actor, role, _, _) => KeepsRequests(s, p, actor, Member(role, true), Dashboard, None, None);
    case DeactivateStep(p, actor, _, _) =>
      if p in s.members { KeepsRequests(s, p, actor, s.members[p].(active := false), Dashboard, None, None); }
    case ReactivateStep(p, actor, role, _, _) => KeepsRequests(s, p, actor, Member(role, true), Dashboard, None, None);
    case TransferStep(p, target, d, actor, _, _) =>
      KeepsRequests(s, Place(p.board, target), actor, Member(Manager, true), Dashboard, None, Some(ManagerTransferred));
      if Promotion(s, p, target, actor).Ok? {
        KeepsRequests(Promotion(s, p, target, actor).value, p, actor, AfterTransfer(d), Dashboard, None,
            Some(ManagerTransferred));
      }
    case BreakGlassStep(p, actor, _, _, _, _) =>
        KeepsRequests(s, p, actor, Member(Manager, false), SuperAdmin, None, None);
    case WithdrawStep(p, actor) =>
      if p in s.members { KeepsRequests(s, p, actor, s.members[p].(active := false), SelfService, None, None); }
    case _ =>
  }

  /* ---------- Whole runs ---------- */

  /**
   In every run the event log links each change of a row to the one before, replays to the rows as
   they are, holds no event without a change, and names each event after the change it records;
   every applicant has at most one request waiting per board.
   */
  lemma {:induction false} LogTellsAll(steps: seq<Step>)
    ensures LogOk(Run(EMPTY, steps)) && OnePending(Run(EMPTY, steps))
  {
    hide Apply;
    if steps != [] {
      LogTellsAll(steps[..|steps| - 1]);
      StepKeepsLog(Run(EMPTY, steps[..|steps| - 1]), steps[|steps| - 1]);
      StepKeepsRequests(Run(EMPTY, steps[..|steps| - 1]), steps[|steps| - 1]);
    }
  }

  /** The step breaks the glass on `board`. */
  ghost predicate Breaks(s: State, step: Step, board: nat) {
    step.BreakGlassStep? && step.p.board == board && Perform(s, step).Ok?
  }

  /** A board with an active manager keeps one through every run in which nobody breaks the glass on it. */
  lemma {:induction false} ManagersStay(s: State, steps: seq<Step>, board: nat)
    requires HasManager(s, board)
    requires forall i :: 0 <= i < |steps| ==> !Breaks(Run(s, steps[..i]), steps[i], board)
    ensures HasManager(Run(s, steps), board)
  {
    hide Apply, HasManager, Perform;
    if steps != [] {
      var init := steps[..|steps| - 1];
      forall i | 0 <= i < |init| ensures !Breaks(Run(s, init[..i]), init[i], board) {
        assert init[..i] == steps[..i];
      }
      ManagersStay(s, init, board);
      assert !Breaks(Run(s, steps[..|init|]), steps[|init|], board);
      StepKeepsManagers(Run(s, init), steps[|steps| - 1], board);
    }
  }

  /** A request once approved or rejected reads the same ever after. */
  lemma {:induction false} DecisionsAreFinal(s: State, steps: seq<Step>)
    requires OnePending(s)
    ensures OnePending(Run(s, steps)) && RequestsKept(s, Run(s, steps))
  {
    hide Apply, OnePending;
    if steps != [] {
      DecisionsAreFinal(s, steps[..|steps| - 1]);
      StepKeepsRequests(Run(s, steps[..|steps| - 1]), steps[|steps| - 1]);
    }
  }

  lemma RunGoesOn(s: State, steps: seq<Step>, step: Step)
    ensures Run(s, steps + [step]) == Apply(Run(s, steps), step)
  {
    hide Apply;
    assert (steps + [step])[..|steps|] == steps;
  }

  lemma NothingYet(s: State)
    ensures Run(s, []) == s
  {
  }

  /** A board with two accounts that nobody has joined. */
  ghost function NewBoard(board: nat, a: nat, b: nat): State {
    State(map[board := true], map[a := Account(true, false)][b := Account(true, false)], map[], [], [])
  }

  lemma BoardIsSetUp(board: nat, a: nat, b: nat)
    ensures Run(EMPTY, [SetBoard(board, true)] + [SetUser(a, Account(true, false))]
        + [SetUser(b, Account(true, false))])
            == NewBoard(board, a, b)
  {
    hide Run;
    NothingYet(EMPTY);
    assert [] + [SetBoard(board, true)] == [SetBoard(board, true)];
    RunGoesOn(EMPTY, [], SetBoard(board, true));
    RunGoesOn(EMPTY, [SetBoard(board, true)], SetUser(a, Account(true, false)));
    RunGoesOn(EMPTY, [SetBoard(board, true)] + [SetUser(a, Account(true, false))], SetUser(b, Account(true, false)));
  }

  /** A manager and a contributor are appointed, and the contributor is made an editor. */
  ghost function Staffing(board: nat, a: nat, b: nat): seq<Step> {
    [GrantStep(Place(board, a), a, Manager, "founder", true)]
    + [GrantStep(Place(board, b), a, Contributor, "writes", true)]
        + [ChangeStep(Place(board, b), a, Editor, "edits", true)]
  }

  ghost predicate Staffed(s: State, t: State, board: nat, a: nat, b: nat) {
    && t.boards == s.boards && t.users == s.users && t.requests == s.requests
    && t.members == map[Place(board, a) := Member(Manager, true), Place(board, b) := Member(Editor, true)]
    && |t.events| == 3 && t.events[0].eventType == t.events[1].eventType == Granted
    && t.events[2].eventType == RoleChanged
  }

  lemma BoardIsStaffed(board: nat, a: nat, b: nat)
    requires a != b
    ensures Staffed(NewBoard(board, a, b), Run(NewBoard(board, a, b), Staffing(board, a, b)), board, a, b)
  {
    hide Run, Grant, ChangeRole, Transfer, ActiveManagers, HasPending;
    var p, q, s0 := Place(board, a), Place(board, b), NewBoard(board, a, b);
    var first, second := GrantStep(p, a, Manager, "founder", true), GrantStep(q, a, Contributor, "writes", true);
    NothingYet(s0);
    assert [] + [first] == [first];
    RunGoesOn(s0, [], first);
    GrantMeaning(s0, p, a, Manager, "founder", true);
    var s1 := Apply(s0, first);
    RunGoesOn(s0, [first], second);
    GrantMeaning(s1, q, a, Contributor, "writes", true);
    var s2 := Apply(s1, second);
    RunGoesOn(s0, [first] + [second], ChangeStep(q, a, Editor, "edits", true));
    ChangeMeaning(s2, q, a, Editor, "edits", true);
  }

  /** A board comes to life, and its editor takes it over from the manager, who leaves. */
  lemma BoardChangesHands(board: nat, a: nat, b: nat)
    requires a != b
    ensures var p, q := Place(board, a), Place(board, b);
            var steps := Staffing(board, a, b) + [TransferStep(p, b, Leave, a, "moves on", true)];
            var t := Run(NewBoard(board, a, b), steps);
            && t.members == map[p := Member(Manager, false), q := Member(Manager, true)]
            && |t.events| == 5 && t.events[3].eventType == t.events[4].eventType == ManagerTransferred
            && t.events[3].place == q && t.events[4].place == p
  {
    hide Run, Transfer, Staffing;
    var p, s0 := Place(board, a), NewBoard(board, a, b);
    BoardIsStaffed(board, a, b);
    RunGoesOn(s0, Staffing(board, a, b), TransferStep(p, b, Leave, a, "moves on", true));
    TransferMeaning(Run(s0, Staffing(board, a, b)), p, b, Leave, a, "moves on", true);
  }
}
