/**
 Session stamps of a verified second factor (accounts/authn/mfa_session.py): marking a session,
 validating the privileged stamp and the remembered dashboard grant.
 */
module MfaSessions {
  import opened Prelude
  import opened Totp

  /** A certificate binding as stamped: its id and version. */
  datatype Certificate = Certificate(id: string, version: nat)

  /** The dictionary under the privileged key. */
  datatype Stamp = Stamp(userId: nat, authVersion: nat, verifiedAt: int, certificate: Option<Certificate>,
      lastSeenAt: Option<int>)

  /** The remembered grant: a stamp and its end. */
  datatype Grant = Grant(stamp: Stamp, expiresAt: int)

  datatype Session = Session(privileged: Option<Stamp>, remembered: Option<Grant>)

  datatype Limits = Limits(privilegedTtl: int, idleTtl: int, rememberTtl: int)

  /** The request: who is logged in, with which roles, and the certificate binding presented. */
  datatype Request = Request(user: Option<nat>, dashboard: bool, presented: Option<string>)

  /** `MfaTotpDevice.objects.filter(..., status=ACTIVE, auth_version=...).exists()`, for the device of `owner`. */
  predicate DeviceMatches(s: State, owner: nat, userId: nat, authVersion: nat) {
    s.device.Some? && s.device.value.status == Active && s.device.value.authVersion == authVersion && userId == owner
  }

  /** The certificate part of the check; `live` says whether the stamped binding is active, unexpired and the user's. */
  predicate CertificateOk(stamp: Stamp, request: Request, required: bool, live: Certificate -> bool) {
    match stamp.certificate
    case None => !required
    case Some(c) => live(c) && (request.presented.Some? ==> request.presented.value == c.id)
  }

  /** `privileged_session_is_valid` as a condition on the stamp. */
  predicate StampValid(
    stamp: Stamp, s: State, owner: nat, request: Request, now: int, required: bool, limits: Limits,
        live: Certificate -> bool)
  {
    && 0 <= now - stamp.verifiedAt <= limits.privilegedTtl
    && request.user == Some(stamp.userId) && DeviceMatches(s, owner, stamp.userId, stamp.authVersion)
    && CertificateOk(stamp, request, required, live)
    && (required ==>
         0 <= now - (if stamp.lastSeenAt.Some? then stamp.lastSeenAt.value else stamp.verifiedAt) <= limits.idleTtl)
  }

  /** The stamp that the check leaves: dropped if invalid, refreshed on the certificate path. */
  function AfterCheck(
    held: Option<Stamp>, s: State, owner: nat, request: Request, now: int, required: bool, limits: Limits,
        live: Certificate -> bool)
    : Option<Stamp>
  {
    if held == None || request.user == None then held
    else if !StampValid(held.value, s, owner, request, now, required, limits, live) then None
    else if required then Some(held.value.(lastSeenAt := Some(now)))
    else held
  }

  /** `dashboard_remembered_session_is_valid` as a condition on the grant. */
  predicate GrantValid(g: Grant, s: State, owner: nat, request: Request, now: int, limits: Limits) {
    && 0 <= now - g.stamp.verifiedAt <= limits.rememberTtl
    && now <= g.expiresAt <= g.stamp.verifiedAt + limits.rememberTtl
    && request.user == Some(g.stamp.userId) && request.dashboard
    && DeviceMatches(s, owner, g.stamp.userId, g.stamp.authVersion)
  }

  /** The entry written by `mark_privileged_session` for the device object at hand, read at version `authVersion`. */
  function NewStamp(owner: nat, authVersion: nat, now: int, certificate: Option<Certificate>): Stamp {
    Stamp(owner, authVersion, now, certificate, if certificate.Some? then Some(now) else None)
  }

  function Marked(
    session: Session, owner: nat, authVersion: nat, now: int, certificate: Option<Certificate>, remember: Option<bool>,
    limits: Limits)
    : Session
  {
    var stamp := NewStamp(owner, authVersion, now, certificate);
    Session(Some(stamp),
            match remember
            case None => session.remembered
            case Some(yes) => if yes && certificate == None then Some(Grant(stamp, now + limits.rememberTtl)) else None)
  }

  class SessionStore {
    var session: Session

    constructor ()
      ensures session == Session(None, None)
    {
      session := Session(None, None);
    }

    method MarkPrivilegedSession(
      owner: nat, authVersion: nat, now: int, certificate: Option<Certificate>, remember: Option<bool>, limits: Limits)
      modifies this
      ensures session == Marked(old(session), owner, authVersion, now, certificate, remember, limits)
    {
      var value := Stamp(owner, authVersion, now, None, None);
      if certificate.Some? {
        value := value.(certificate := certificate, lastSeenAt := Some(now));
      }
      session := session.(privileged := Some(value));
      if remember.Some? {
        if remember.value && certificate == None {
          session := session.(remembered := Some(Grant(value, now + limits.rememberTtl)));
        } else {
          session := session.(remembered := None);
        }
      }
    }

    /** An invalid stamp is dropped; a valid one is refreshed on the certificate path. */
    method PrivilegedSessionIsValid(
      s: State, owner: nat, request: Request, now: int, required: bool, limits: Limits, live: Certificate -> bool)
      returns (valid: bool)
      modifies this
      ensures valid <==> old(session).privileged.Some? && request.user.Some?
                         && StampValid(old(session).privileged.value, s, owner, request, now, required, limits, live)
      ensures session.remembered == old(session).remembered
      ensures session.privileged == AfterCheck(old(session).privileged, s, owner, request, now, required, limits, live)
    {
      if session.privileged == None || request.user == None { return false; }
      var value := session.privileged.value;
      var age := now - value.verifiedAt;
      if age < 0 || age > limits.privilegedTtl {
        session := session.(privileged := None);
        return false;
      }
      valid := DeviceMatches(s, owner, value.userId, value.authVersion) && request.user == Some(value.userId);
      if required && value.certificate == None {
        valid := false;
      }
      if value.certificate.Some? {
        valid := valid && live(value.certificate.value);
        if request.presented.Some? {
          valid := valid && request.presented.value == value.certificate.value.id;
        }
      }
      if valid && required {
        var idle := now - (if value.lastSeenAt.Some? then value.lastSeenAt.value else value.verifiedAt);
        valid := 0 <= idle <= limits.idleTtl;
        if valid {
          session := session.(privileged := Some(value.(lastSeenAt := Some(now))));
        }
      }
      if !valid {
        session := session.(privileged := None);
      }
    }

    method DashboardRememberedSessionIsValid(s: State, owner: nat, request: Request, now: int, limits: Limits)
        returns (valid: bool)
      modifies this
      ensures valid <==> old(session).remembered.Some? && request.user.Some?
                         && GrantValid(old(session).remembered.value, s, owner, request, now, limits)
      ensures session.privileged == old(session).privileged
      ensures session.remembered == if request.user == None || valid then old(session).remembered else None
    {
      if session.remembered == None || request.user == None { return false; }
      var value := session.remembered.value;
      valid := GrantValid(value, s, owner, request, now, limits);
      if !valid {
        session := session.(remembered := None);
      }
    }
  }

  /** Whatever a session holds, only its own user with an active device of the stamped version gets in. */
  lemma OnlyTheActiveDeviceCounts(
      stamp: Stamp, g: Grant, s: State, owner: nat, request: Request, now: int, required: bool, limits: Limits,
      live: Certificate -> bool)
    ensures StampValid(stamp, s, owner, request, now, required, limits, live) ==>
              && request.user == Some(owner) && s.device.Some? && s.device.value.status == Active
              && s.device.value.authVersion == stamp.authVersion
    ensures GrantValid(g, s, owner, request, now, limits) ==>
              && request.user == Some(owner) && s.device.Some? && s.device.value.status == Active
              && s.device.value.authVersion == g.stamp.authVersion
  {
  }

  /* ---------- Erasing a device ends every stamp of it ---------- */

  /** The step takes the device out of use. */
  predicate ErasesDevice(s: State, step: Step, cfg: Settings) {
    s.device.Some? && s.device.value.status != Revoked
    && Apply(s, step, cfg).device.Some? && Apply(s, step, cfg).device.value.status == Revoked
  }

  /** Taking a device out of use destroys its seed and codes and raises its version; three operations do it. */
  lemma ErasureMeaning(s: State, step: Step, cfg: Settings)
    requires Inv(s) && ErasesDevice(s, step, cfg)
    ensures var t := Apply(s, step, cfg);
            && t.device.value.secret == Erased && t.device.value.codes == map[]
                 && t.device.value.lastAcceptedStep == None
            && t.device.value.authVersion == s.device.value.authVersion + 1
            && (step.RevokeStep? || (step.RecoverStep? && step.rebind) || step.ConfirmStep?)
  {
    hide FirstMatch, FreshCodes;
  }

  /**
   Once a device is erased no stamp taken of it before is valid again, nor any remembered grant: not
   after re-enrolling on the same row, not at any later time, not for any request, and not even when
   the session is marked only afterwards from a device object read before the erasure.
   */
  lemma NoStampSurvivesErasure(
      s: State, step: Step, cfg: Settings, later: seq<(Step, Settings)>, stamp: Stamp, g: Grant, owner: nat,
          request: Request,
      now: int, required: bool, limits: Limits, live: Certificate -> bool)
    requires Inv(s) && ErasesDevice(s, step, cfg)
    requires stamp.authVersion <= VersionOf(s) && g.stamp.authVersion <= VersionOf(s)
    ensures var t := Run(Apply(s, step, cfg), later);
            && !StampValid(stamp, t, owner, request, now, required, limits, live)
            && !GrantValid(g, t, owner, request, now, limits)
  {
    hide Inv, Apply, Run;
    ErasureMeaning(s, step, cfg);
    StepKeeps(s, step, cfg);
    VersionsRise(Apply(s, step, cfg), later);
  }

  /**
   Without an erasure in between, a stamp lasts exactly as long as its time allows: marking and
   asking at any later moment succeeds if and only if the age is within the limit and the device is
   still active under the version it was read at.
   */
  lemma StampLastsItsTime(
      s: State, steps: seq<(Step, Settings)>, owner: nat, taken: int, now: int, limits: Limits,
          live: Certificate -> bool)
    requires Inv(s) && s.device.Some? && s.device.value.status == Active
    ensures var t := Run(s, steps);
            var stamp := NewStamp(owner, VersionOf(s), taken, None);
            StampValid(stamp, t, owner, Request(Some(owner), false, None), now, false, limits, live) <==>
            VersionOf(t) == VersionOf(s) && 0 <= now - taken <= limits.privilegedTtl
  {
    hide Inv, Apply, Run;
    StaysActive(s, steps);
  }

  /** What marking writes: a stamp of the user and the version, and the grant only where it was asked for. */
  lemma MarkingMeaning(
      session: Session, owner: nat, authVersion: nat, now: int, certificate: Option<Certificate>,
      remember: Option<bool>, limits: Limits)
    ensures var marked := Marked(session, owner, authVersion, now, certificate, remember, limits);
            && marked.privileged.Some? && var stamp := marked.privileged.value;
               && stamp.userId == owner && stamp.authVersion == authVersion && stamp.verifiedAt == now
               && stamp.certificate == certificate
               && stamp.lastSeenAt == (if certificate == None then None else Some(now))
               && (remember == None ==> marked.remembered == session.remembered)
               && (remember.Some? && (remember == Some(false) || certificate.Some?) ==> marked.remembered == None)
               && (remember == Some(true) && certificate == None ==>
                     marked.remembered == Some(Grant(stamp, now + limits.rememberTtl)))
  {
  }

  /**
   A remembered grant lets its user into the dashboard exactly as long as the limits of both moments
   allow: asking at any later moment succeeds if and only if the device still has its version, the
   grant's age is within today's limit and within the limit it was given, and today's limit is not
   the shorter of the two.
   */
  lemma GrantLastsItsTime(
      s: State, steps: seq<(Step, Settings)>, session: Session, owner: nat, taken: int, given: Limits,
      request: Request, now: int, limits: Limits)
    requires Inv(s) && s.device.Some? && s.device.value.status == Active
    ensures var t := Run(s, steps);
            var grant := Marked(session, owner, VersionOf(s), taken, None, Some(true), given).remembered;
            && grant.Some?
            && (GrantValid(grant.value, t, owner, request, now, limits) <==>
                && request.user == Some(owner) && request.dashboard && VersionOf(t) == VersionOf(s)
                && taken <= now <= taken + limits.rememberTtl && now <= taken + given.rememberTtl
                && given.rememberTtl <= limits.rememberTtl)
  {
    hide Inv, Apply, Run;
    StaysActive(s, steps);
  }

  lemma StepStaysActive(s: State, step: Step, cfg: Settings)
    requires Inv(s) && s.device.Some? && s.device.value.status == Active
    ensures var t := Apply(s, step, cfg);
            t.device.Some? && (VersionOf(t) == VersionOf(s) ==> t.device.value.status == Active)
  {
    hide FirstMatch, FreshCodes;
  }

  /** As long as its version stands, an active device is active. */
  lemma {:induction false} StaysActive(s: State, steps: seq<(Step, Settings)>)
    requires Inv(s) && s.device.Some? && s.device.value.status == Active
    ensures var t := Run(s, steps);
            && t.device.Some? && VersionOf(s) <= VersionOf(t)
            && (VersionOf(t) == VersionOf(s) ==> t.device.value.status == Active)
  {
    hide Inv, Apply;
    VersionsRise(s, steps);
    if steps != [] {
      var init := steps[..|steps| - 1];
      var last := steps[|steps| - 1];
      StaysActive(s, init);
      VersionsRise(s, init);
      StepKeeps(Run(s, init), last.0, last.1);
      KeepsDevice(Run(s, init), last.0, last.1);
      if VersionOf(Run(s, steps)) == VersionOf(s) {
        StepStaysActive(Run(s, init), last.0, last.1);
      }
    }
  }

  lemma KeepsDevice(s: State, step: Step, cfg: Settings)
    requires s.device.Some?
    ensures Apply(s, step, cfg).device.Some?
  {
    hide FirstMatch, FreshCodes;
  }

  /* ---------- A stamp in use ---------- */

  /** One check of the session: what has become of the device by then, and the request. */
  datatype Check = Check(steps: seq<(Step, Settings)>, request: Request, now: int, required: bool,
      live: Certificate -> bool)

  /** The stamp the session holds after the first `n` checks. */
  ghost function Held(stamp: Stamp, s: State, owner: nat, checks: seq<Check>, n: nat, limits: Limits): Option<Stamp>
    requires n <= |checks|
  {
    if n == 0 then Some(stamp)
    else
      var c := checks[n - 1];
      AfterCheck(Held(stamp, s, owner, checks, n - 1, limits), Run(s, c.steps), owner, c.request, c.now, c.required,
          limits, c.live)
  }

  /** The `i`-th check succeeds. */
  ghost predicate Passes(stamp: Stamp, s: State, owner: nat, checks: seq<Check>, i: nat, limits: Limits)
    requires i < |checks|
  {
    var held, c := Held(stamp, s, owner, checks, i, limits), checks[i];
    held.Some? && c.request.user.Some?
    && StampValid(held.value, Run(s, c.steps), owner, c.request, c.now, c.required, limits, c.live)
  }

  /** The last time that counts as use: the latest check that asked for a certificate, or else the marking. */
  function LastUse(taken: int, checks: seq<Check>, i: nat): int
    requires i <= |checks|
  {
    if i == 0 then taken else if checks[i - 1].required then checks[i - 1].now else LastUse(taken, checks, i - 1)
  }

  /** What the `i`-th check comes down to. */
  ghost predicate InUse(
    s: State, owner: nat, taken: int, certificate: Option<Certificate>, checks: seq<Check>, i: nat, limits: Limits)
    requires i < |checks|
  {
    var c := checks[i];
    && c.request.user == Some(owner)
    && VersionOf(Run(s, c.steps)) == VersionOf(s)
    && 0 <= c.now - taken <= limits.privilegedTtl
    && (match certificate
        case None => !c.required
        case Some(binding) =>
            c.live(binding) && (c.request.presented.Some? ==> c.request.presented.value == binding.id))
    && (c.required ==> 0 <= c.now - LastUse(taken, checks, i) <= limits.idleTtl)
  }

  /** The stamp as it was marked, but for the refreshed time of use. */
  ghost predicate Refreshed(held: Option<Stamp>, stamp: Stamp, taken: int, use: int) {
    held.Some? && held.value == stamp.(lastSeenAt := held.value.lastSeenAt)
    && use == (if held.value.lastSeenAt.Some? then held.value.lastSeenAt.value else taken)
  }

  lemma OneCheck(
      s: State, owner: nat, taken: int, certificate: Option<Certificate>, checks: seq<Check>, i: nat, limits: Limits)
    requires Inv(s) && s.device.Some? && s.device.value.status == Active && i < |checks|
    requires var stamp := NewStamp(owner, VersionOf(s), taken, certificate);
             Refreshed(Held(stamp, s, owner, checks, i, limits), stamp, taken, LastUse(taken, checks, i))
    ensures var stamp := NewStamp(owner, VersionOf(s), taken, certificate);
            && (Passes(stamp, s, owner, checks, i, limits) <==> InUse(s, owner, taken, certificate, checks, i, limits))
            && (Passes(stamp, s, owner, checks, i, limits) ==>
                  Refreshed(Held(stamp, s, owner, checks, i + 1, limits), stamp, taken, LastUse(taken, checks, i + 1)))
  {
    hide Inv, Apply, Run;
    StaysActive(s, checks[i].steps);
  }

  lemma {:induction false} ChecksSoFar(
      s: State, owner: nat, taken: int, certificate: Option<Certificate>, checks: seq<Check>, n: nat, limits: Limits)
    requires Inv(s) && s.device.Some? && s.device.value.status == Active && n <= |checks|
    ensures var stamp := NewStamp(owner, VersionOf(s), taken, certificate);
            && ((forall i :: 0 <= i < n ==> Passes(stamp, s, owner, checks, i, limits)) <==>
                (forall i :: 0 <= i < n ==> InUse(s, owner, taken, certificate, checks, i, limits)))
            && ((forall i :: 0 <= i < n ==> Passes(stamp, s, owner, checks, i, limits)) ==>
                  Refreshed(Held(stamp, s, owner, checks, n, limits), stamp, taken, LastUse(taken, checks, n)))
  {
    hide Inv, Passes, InUse, Held, LastUse, Refreshed;
    var stamp := NewStamp(owner, VersionOf(s), taken, certificate);
    if n == 0 {
      FreshStamp(s, owner, taken, certificate, checks, limits);
    } else {
      ChecksSoFar(s, owner, taken, certificate, checks, n - 1, limits);
      if forall i :: 0 <= i < n - 1 ==> Passes(stamp, s, owner, checks, i, limits) {
        OneCheck(s, owner, taken, certificate, checks, n - 1, limits);
      }
    }
  }

  /** A stamp that failed a check of a logged-in user is gone: no later check passes. */
  lemma {:induction false} FailedCheckIsFinal(
      stamp: Stamp, s: State, owner: nat, checks: seq<Check>, i: nat, j: nat, limits: Limits)
    requires i < j <= |checks| && checks[i].request.user.Some? && !Passes(stamp, s, owner, checks, i, limits)
    ensures Held(stamp, s, owner, checks, j, limits) == None
    ensures j < |checks| ==> !Passes(stamp, s, owner, checks, j, limits)
    decreases j
  {
    hide Run, StampValid;
    if j > i + 1 { FailedCheckIsFinal(stamp, s, owner, checks, i, j - 1, limits); }
  }

  lemma FreshStamp(s: State, owner: nat, taken: int, certificate: Option<Certificate>, checks: seq<Check>,
      limits: Limits)
    ensures var stamp := NewStamp(owner, VersionOf(s), taken, certificate);
            Refreshed(Held(stamp, s, owner, checks, 0, limits), stamp, taken, LastUse(taken, checks, 0))
  {
  }

  /**
   A session goes on passing its checks, whatever they ask for, if and only if at each of them the
   user is the one of the stamp, the device still has its version, the stamp's age is allowed, the
   certificate is there, live and the one presented, and, where a certificate is asked for, no more
   than the idle time has gone since the last check that asked for one.
   */
  lemma StampLastsInUse(
      s: State, owner: nat, taken: int, certificate: Option<Certificate>, checks: seq<Check>, limits: Limits)
    requires Inv(s) && s.device.Some? && s.device.value.status == Active
    ensures var stamp := NewStamp(owner, VersionOf(s), taken, certificate);
            (forall i :: 0 <= i < |checks| ==> Passes(stamp, s, owner, checks, i, limits)) <==>
            (forall i :: 0 <= i < |checks| ==> InUse(s, owner, taken, certificate, checks, i, limits))
  {
    hide Inv, Passes, InUse, Held, LastUse, Refreshed;
    ChecksSoFar(s, owner, taken, certificate, checks, |checks|, limits);
  }
}
