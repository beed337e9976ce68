/**
 The life of one user's TOTP device (accounts/authn/mfa_services.py): enrolment, confirmation,
 verification, recovery and revocation. Each operation is one transaction on the locked row.
 */
module Totp {
  import opened Prelude

  type Seed = nat

  /** What the stored ciphertext decrypts to; nothing after it was overwritten with random bytes. */
  datatype Secret = Sealed(seed: Seed) | Erased

  datatype Status = Pending | Active | Revoked

  /** The device row; `codes` says of each recovery code whether it was used. */
  datatype Device = Device(
    status: Status, secret: Secret, bindingExpiresAt: int, lastAcceptedStep: Option<nat>, authVersion: nat,
    codes: map<string, bool>)

  /** A one-time code taken as good: under which version and seed, and for which time step. */
  datatype Acceptance = Acceptance(version: nat, seed: Seed, step: nat)

  /** The row, and the log of accepted codes. */
  datatype State = State(device: Option<Device>, accepted: seq<Acceptance>)

  datatype Outcome =
    | Done | NotAllowed | AlreadyActive | NotPending | BindingExpired | SecretUnavailable | InvalidCode | ReplayedCode
    | DeviceInactive | ConfigInvalid | CodeRefused

  /** The code generator and the settings. */
  datatype Settings = Settings(otp: (Seed, nat) -> string, window: nat, keyring: bool, bindingTtl: nat)

  /* ---------- The search for a matching step ---------- */

  predicate Matches(otp: (Seed, nat) -> string, seed: Seed, code: string, step: int) {
    step >= 0 && otp(seed, step) == code
  }

  /** The first matching step from `step` to `last`. */
  function FirstMatch(otp: (Seed, nat) -> string, seed: Seed, code: string, step: int, last: int): (r: Option<nat>)
    ensures r.Some? ==> step <= r.value <= last && Matches(otp, seed, code, r.value)
                        && forall k :: step <= k < r.value ==> !Matches(otp, seed, code, k)
    ensures r == None ==> forall k :: step <= k <= last ==> !Matches(otp, seed, code, k)
    decreases last - step
  {
    if step > last then None
    else if Matches(otp, seed, code, step) then Some(step)
    else FirstMatch(otp, seed, code, step + 1, last)
  }

  /** `_matching_step` within a window of steps around the current one. */
  method MatchingStep(otp: (Seed, nat) -> string, seed: Seed, code: string, current: nat, window: nat)
      returns (r: Option<nat>)
    ensures r == FirstMatch(otp, seed, code, current - window, current + window)
    ensures r.Some? ==> current - window <= r.value <= current + window && otp(seed, r.value) == code
    ensures r.Some? ==> forall k :: current - window <= k < r.value ==> !Matches(otp, seed, code, k)
    ensures r == None ==> forall k :: current - window <= k <= current + window ==> !Matches(otp, seed, code, k)
  {
    var first := FirstMatch(otp, seed, code, current - window, current + window);
    var w: int := window;
    for offset := -w to w + 1
      invariant FirstMatch(otp, seed, code, current + offset, current + window) == first
    {
      var step := current + offset;
      if step >= 0 && otp(seed, step) == code {
        return Some(step);
      }
    }
    r := None;
  }

  /* ---------- The operations, as functions of the row ---------- */

  function ErasedDevice(d: Device): Device {
    d.(status := Revoked, secret := Erased, lastAcceptedStep := None, authVersion := d.authVersion + 1, codes := map[])
  }

  function Erase(s: State): State
    requires s.device.Some?
  {
    s.(device := Some(ErasedDevice(s.device.value)))
  }

  /** `start_totp_enrollment` */
  function Start(s: State, cfg: Settings, eligible: bool, seed: Seed, now: int): (State, Outcome) {
    if !eligible then (s, NotAllowed)
    else if !cfg.keyring || cfg.window > 1 then (s, ConfigInvalid)
    else if s.device.Some? && s.device.value.status == Active then (s, AlreadyActive)
    else
      var version := if s.device.Some? then s.device.value.authVersion else 1;
      (s.(device := Some(Device(Pending, Sealed(seed), now + cfg.bindingTtl, None, version, map[]))), Done)
  }

  /** The seed, if the ciphertext and a key for it are at hand. */
  function Decrypt(d: Device, cfg: Settings): Option<Seed> {
    if cfg.keyring && d.secret.Sealed? then Some(d.secret.seed) else None
  }

  function FreshCodes(codes: set<string>): map<string, bool> {
    map c | c in codes :: false
  }

  /** `confirm_totp_enrollment`; an expired or undecryptable binding is erased before the error is raised. */
  function Confirm(s: State, cfg: Settings, eligible: bool, code: string, now: int, current: nat,
      codes: set<string>): (State, Outcome) {
    if !eligible then (s, NotAllowed)
    else if s.device == None || s.device.value.status != Pending then (s, NotPending)
    else
      var d := s.device.value;
      if d.bindingExpiresAt <= now then (Erase(s), BindingExpired)
      else
        match Decrypt(d, cfg)
        case None => (Erase(s), SecretUnavailable)
        case Some(seed) =>
          if cfg.window > 1 then (s, ConfigInvalid)
          else
            match FirstMatch(cfg.otp, seed, code, current - cfg.window, current + cfg.window)
            case None => (s, InvalidCode)
            case Some(step) =>
              (State(Some(d.(status := Active, lastAcceptedStep := Some(step), codes := FreshCodes(codes))),
                     s.accepted + [Acceptance(d.authVersion, seed, step)]), Done)
  }

  predicate Replayed(d: Device, step: nat) {
    d.lastAcceptedStep.Some? && step <= d.lastAcceptedStep.value
  }

  /** The checks shared by verification and self-revocation: the step a code stands for, or the refusal. */
  function CheckCode(d: Device, cfg: Settings, code: string, current: nat): Result<nat, Outcome> {
    match Decrypt(d, cfg)
    case None => Err(SecretUnavailable)
    case Some(seed) =>
      if cfg.window > 1 then Err(ConfigInvalid)
      else
        match FirstMatch(cfg.otp, seed, code, current - cfg.window, current + cfg.window)
        case None => Err(InvalidCode)
        case Some(step) => if Replayed(d, step) then Err(ReplayedCode) else Ok(step)
  }

  /** `verify_active_totp` */
  function Verify(s: State, cfg: Settings, eligible: bool, code: string, current: nat): (State, Outcome) {
    if !eligible then (s, NotAllowed)
    else if s.device == None || s.device.value.status != Active then (s, DeviceInactive)
    else
      var d := s.device.value;
      match CheckCode(d, cfg, code, current)
      case Err(e) => (s, e)
      case Ok(step) =>
        (State(Some(d.(lastAcceptedStep := Some(step))),
            s.accepted + [Acceptance(d.authVersion, Decrypt(d, cfg).value, step)]), Done)
  }

  /** `consume_recovery_code`, and with `rebind` `consume_recovery_code_for_rebind`. */
  function Recover(s: State, eligible: bool, code: string, rebind: bool): (State, Outcome) {
    if !eligible then (s, NotAllowed)
    else if s.device == None || s.device.value.status != Active then (s, DeviceInactive)
    else
      var d := s.device.value;
      if code !in d.codes || d.codes[code] then (s, CodeRefused)
      else
        var used := s.(device := Some(d.(codes := d.codes[code := true])));
        (if rebind then Erase(used) else used, Done)
  }

  /** `revoke_totp_device`; a superuser revoking the own device has to show a code as well. */
  function Revoke(s: State, cfg: Settings, allowed: bool, own: bool, code: string, current: nat): (State, Outcome) {
    if !allowed then (s, NotAllowed)
    else if s.device == None || s.device.value.status == Revoked then (s, DeviceInactive)
    else if !own then (Erase(s), Done)
    else
      var d := s.device.value;
      match CheckCode(d, cfg, code, current)
      case Err(e) => (s, e)
      case Ok(step) =>
          (Erase(s.(accepted := s.accepted + [Acceptance(d.authVersion, Decrypt(d, cfg).value, step)])), Done)
  }

  /* ---------- The row and its methods ---------- */

  class MfaDevice {
    var device: Option<Device>
    ghost var accepted: seq<Acceptance>
    const cfg: Settings

    ghost function Now(): State
      reads this
    {
      State(device, accepted)
    }

    constructor (settings: Settings)
      ensures Now() == State(None, []) && cfg == settings
    {
      device, accepted, cfg := None, [], settings;
    }

    /** `_erase_device_secret` */
    method EraseDeviceSecret()
      requires device.Some?
      modifies this
      ensures Now() == Erase(old(Now()))
    {
      var d := device.value;
      d := d.(status := Revoked);
      d := d.(lastAcceptedStep := None);
      d := d.(authVersion := d.authVersion + 1);
      d := d.(secret := Erased, codes := map[]);
      device := Some(d);
    }

    method StartTotpEnrollment(eligible: bool, seed: Seed, now: int) returns (outcome: Outcome)
      modifies this
      ensures (Now(), outcome) == Start(old(Now()), cfg, eligible, seed, now)
    {
      if !eligible { return NotAllowed; }
      if !cfg.keyring || cfg.window > 1 { return ConfigInvalid; }
      if device.Some? && device.value.status == Active { return AlreadyActive; }
      var d := if device.Some? then device.value else Device(Pending, Erased, 0, None, 1, map[]);
      d := d.(status := Pending, secret := Sealed(seed), bindingExpiresAt := now + cfg.bindingTtl);
      d := d.(lastAcceptedStep := None, codes := map[]);
      device := Some(d);
      outcome := Done;
    }

    method ConfirmTotpEnrollment(eligible: bool, code: string, now: int, current: nat, codes: set<string>)
        returns (outcome: Outcome)
      modifies this
      ensures (Now(), outcome) == Confirm(old(Now()), cfg, eligible, code, now, current, codes)
    {
      if !eligible { return NotAllowed; }
      if device == None || device.value.status != Pending { return NotPending; }
      var d := device.value;
      if d.bindingExpiresAt <= now {
        EraseDeviceSecret();
        return BindingExpired;
      }
      var seed := Decrypt(d, cfg);
      if seed == None {
        EraseDeviceSecret();
        return SecretUnavailable;
      }
      if cfg.window > 1 { return ConfigInvalid; }
      var matched := MatchingStep(cfg.otp, seed.value, code, current, cfg.window);
      if matched == None { return InvalidCode; }
      d := d.(status := Active, lastAcceptedStep := matched);
      d := d.(codes := FreshCodes(codes));
      accepted := accepted + [Acceptance(d.authVersion, seed.value, matched.value)];
      device := Some(d);
      outcome := Done;
    }

    method VerifyActiveTotp(eligible: bool, code: string, current: nat) returns (outcome: Outcome)
      modifies this
      ensures (Now(), outcome) == Verify(old(Now()), cfg, eligible, code, current)
    {
      if !eligible { return NotAllowed; }
      if device == None || device.value.status != Active { return DeviceInactive; }
      var d := device.value;
      var seed := Decrypt(d, cfg);
      if seed == None { return SecretUnavailable; }
      if cfg.window > 1 { return ConfigInvalid; }
      var matched := MatchingStep(cfg.otp, seed.value, code, current, cfg.window);
      if matched == None { return InvalidCode; }
      if d.lastAcceptedStep.Some? && matched.value <= d.lastAcceptedStep.value { return ReplayedCode; }
      d := d.(lastAcceptedStep := matched);
      accepted := accepted + [Acceptance(d.authVersion, seed.value, matched.value)];
      device := Some(d);
      outcome := Done;
    }

    method ConsumeRecoveryCode(eligible: bool, code: string, rebind: bool) returns (outcome: Outcome)
      modifies this
      ensures (Now(), outcome) == Recover(old(Now()), eligible, code, rebind)
    {
      if !eligible { return NotAllowed; }
      if device == None || device.value.status != Active { return DeviceInactive; }
      var d := device.value;
      if code !in d.codes || d.codes[code] { return CodeRefused; }
      device := Some(d.(codes := d.codes[code := true]));
      if rebind {
        EraseDeviceSecret();
      }
      outcome := Done;
    }

    method RevokeTotpDevice(allowed: bool, own: bool, code: string, current: nat) returns (outcome: Outcome)
      modifies this
      ensures (Now(), outcome) == Revoke(old(Now()), cfg, allowed, own, code, current)
    {
      if !allowed { return NotAllowed; }
      if device == None || device.value.status == Revoked { return DeviceInactive; }
      if own {
        var d := device.value;
        var seed := Decrypt(d, cfg);
        if seed == None { return SecretUnavailable; }
        if cfg.window > 1 { return ConfigInvalid; }
        var matched := MatchingStep(cfg.otp, seed.value, code, current, cfg.window);
        if matched == None { return InvalidCode; }
        if d.lastAcceptedStep.Some? && matched.value <= d.lastAcceptedStep.value { return ReplayedCode; }
        accepted := accepted + [Acceptance(d.authVersion, seed.value, matched.value)];
      }
      EraseDeviceSecret();
      outcome := Done;
    }
  }

  /* ---------- What a state keeps ---------- */

  /** Entry `b` is of a later enrolment, or of the same one with the same seed and a later step. */
  predicate Later(a: Acceptance, b: Acceptance) {
    a.version < b.version || (a.version == b.version && a.seed == b.seed && a.step < b.step)
  }

  ghost predicate Ordered(accepted: seq<Acceptance>) {
    forall i, j :: 0 <= i < j < |accepted| ==> Later(accepted[i], accepted[j])
  }

  /** Everything accepted is in the past of the device as it is now. */
  ghost predicate DeviceOk(s: State) {
    match s.device
    case None => s.accepted == []
    case Some(d) =>
      && d.authVersion >= 1
      && (d.status == Active ==> d.lastAcceptedStep.Some? && d.secret.Sealed?)
      && (d.status == Pending ==> d.lastAcceptedStep == None && d.codes == map[])
      && (d.status == Revoked ==> d.secret == Erased && d.codes == map[])
      && forall i :: 0 <= i < |s.accepted| ==>
           if d.status == Active
           then s.accepted[i].version < d.authVersion
                || (s.accepted[i].version == d.authVersion && s.accepted[i].seed == d.secret.seed
                    && s.accepted[i].step <= d.lastAcceptedStep.value)
           else s.accepted[i].version < d.authVersion
  }

  ghost predicate Inv(s: State) {
    Ordered(s.accepted) && DeviceOk(s)
  }

  function VersionOf(s: State): nat {
    match s.device case None => 0 case Some(d) => d.authVersion
  }

  datatype Step =
    | StartStep(eligible: bool, seed: Seed, now: int)
    | ConfirmStep(eligible: bool, code: string, now: int, current: nat, codes: set<string>)
    | VerifyStep(eligible: bool, code: string, current: nat)
    | RecoverStep(eligible: bool, code: string, rebind: bool)
    | RevokeStep(allowed: bool, own: bool, code: string, current: nat)

  /** The settings may change between steps. */
  function Apply(s: State, step: Step, cfg: Settings): State {
    match step
    case StartStep(eligible, seed, now) => Start(s, cfg, eligible, seed, now).0
    case ConfirmStep(eligible, code, now, current, codes) => Confirm(s, cfg, eligible, code, now, current, codes).0
    case VerifyStep(eligible, code, current) => Verify(s, cfg, eligible, code, current).0
    case RecoverStep(eligible, code, rebind) => Recover(s, eligible, code, rebind).0
    case RevokeStep(allowed, own, code, current) => Revoke(s, cfg, allowed, own, code, current).0
  }

  function Run(s: State, steps: seq<(Step, Settings)>): State {
    if steps == [] then s
    else Apply(Run(s, steps[..|steps| - 1]), steps[|steps| - 1].0, steps[|steps| - 1].1)
  }

  lemma {:induction false} StepKeeps(s: State, step: Step, cfg: Settings)
    requires Inv(s)
    ensures var t := Apply(s, step, cfg);
            && Inv(t)
            && VersionOf(s) <= VersionOf(t)
            && s.accepted <= t.accepted && |t.accepted| <= |s.accepted| + 1
  {
    hide FirstMatch, FreshCodes;
  }

  /**
   In every run, with any changes of the settings, the accepted steps of one enrolment strictly
   rise, the confirming one included; so no step is ever accepted twice for one seed.
   */
  lemma {:induction false} AcceptedStepsRise(steps: seq<(Step, Settings)>)
    ensures Inv(Run(State(None, []), steps))
    ensures var accepted := Run(State(None, []), steps).accepted;
            forall i, j :: 0 <= i < j < |accepted| && accepted[i].version >= accepted[j].version ==>
              && accepted[i].version == accepted[j].version && accepted[i].seed == accepted[j].seed
              && accepted[i].step < accepted[j].step
  {
    hide Apply, Inv;
    if steps == [] {
      NewUser();
    } else {
      AcceptedStepsRise(steps[..|steps| - 1]);
      StepKeeps(Run(State(None, []), steps[..|steps| - 1]), steps[|steps| - 1].0, steps[|steps| - 1].1);
      OrderMeaning(Run(State(None, []), steps));
    }
  }

  lemma OrderMeaning(s: State)
    requires Inv(s)
    ensures forall i, j :: 0 <= i < j < |s.accepted| && s.accepted[i].version >= s.accepted[j].version ==>
              && s.accepted[i].version == s.accepted[j].version && s.accepted[i].seed == s.accepted[j].seed
              && s.accepted[i].step < s.accepted[j].step
  {
    hide DeviceOk;
    forall i, j | 0 <= i < j < |s.accepted| ensures Later(s.accepted[i], s.accepted[j]) {}
  }

  lemma NewUser()
    ensures Inv(State(None, []))
  {
  }

  lemma {:induction false} VersionsRise(s: State, steps: seq<(Step, Settings)>)
    requires Inv(s)
    ensures Inv(Run(s, steps)) && VersionOf(s) <= VersionOf(Run(s, steps))
  {
    hide Apply, Inv, VersionOf;
    if steps != [] {
      VersionsRise(s, steps[..|steps| - 1]);
      StepKeeps(Run(s, steps[..|steps| - 1]), steps[|steps| - 1].0, steps[|steps| - 1].1);
    }
  }

  /** A code that was accepted is refused as long as the same enrolment lasts, at whatever time it is shown. */
  lemma AcceptedCodeIsSpent(s: State, cfg: Settings, current: nat, code: string, i: nat)
    requires Inv(s) && s.device.Some? && s.device.value.status == Active
    requires i < |s.accepted| && s.accepted[i].version == s.device.value.authVersion
    requires Decrypt(s.device.value, cfg).Some? && cfg.window <= 1
    requires FirstMatch(cfg.otp, s.device.value.secret.seed, code, current - cfg.window, current + cfg.window)
             == Some(s.accepted[i].step)
    ensures Verify(s, cfg, true, code, current) == (s, ReplayedCode)
  {
    hide FirstMatch;
  }

  /** As long as the enrolment of version `v` lasts it is active and the code is marked as used. */
  ghost predicate UsedUp(s: State, code: string, v: nat) {
    && s.device.Some? && v <= VersionOf(s)
    && (VersionOf(s) == v ==>
          s.device.value.status == Active && code in s.device.value.codes && s.device.value.codes[code])
  }

  lemma StepKeepsUsedUp(s: State, step: Step, cfg: Settings, code: string, v: nat)
    requires Inv(s) && UsedUp(s, code, v)
    ensures UsedUp(Apply(s, step, cfg), code, v)
  {
    hide FirstMatch, FreshCodes;
  }

  lemma {:induction false} RunKeepsUsedUp(s: State, steps: seq<(Step, Settings)>, code: string, v: nat)
    requires Inv(s) && UsedUp(s, code, v)
    ensures UsedUp(Run(s, steps), code, v)
  {
    hide Inv, Apply, UsedUp;
    if steps != [] {
      var init, last := steps[..|steps| - 1], steps[|steps| - 1];
      RunKeepsUsedUp(s, init, code, v);
      VersionsRise(s, init);
      StepKeepsUsedUp(Run(s, init), last.0, last.1, code, v);
    }
  }

  /**
   A recovery code works once: in every later state of the same enrolment it is refused and changes
   nothing, and a use for rebinding ends the enrolment at once.
   */
  lemma RecoveryCodeWorksOnce(s: State, code: string, rebind: bool, later: seq<(Step, Settings)>, again: bool)
    requires Inv(s) && Recover(s, true, code, rebind).1 == Done
    ensures var t := Run(Recover(s, true, code, rebind).0, later);
            && (VersionOf(t) == VersionOf(s) ==> Recover(t, true, code, again) == (t, CodeRefused))
            && (rebind ==> VersionOf(s) < VersionOf(t))
  {
    hide Inv, Run;
    var used := Recover(s, true, code, rebind).0;
    RecoverKeeps(s, code, rebind);
    RunKeepsUsedUp(used, later, code, VersionOf(s));
    VersionsRise(used, later);
  }

  lemma RecoverKeeps(s: State, code: string, rebind: bool)
    requires Inv(s)
    ensures Inv(Recover(s, true, code, rebind).0)
  {
  }

  /** The step a code stands for: the earliest in the window whose code it is. */
  ghost predicate StandsFor(cfg: Settings, seed: Seed, code: string, current: nat, step: nat) {
    && current - cfg.window <= step <= current + cfg.window && cfg.otp(seed, step) == code
    && forall k :: current - cfg.window <= k < step ==> !Matches(cfg.otp, seed, code, k)
  }

  /**
   A verification succeeds exactly for an eligible user with an active, readable device whose code
   stands for a step later than all accepted ones; it then records that step, and otherwise changes
   nothing.
   */
  lemma VerifyMeaning(s: State, cfg: Settings, eligible: bool, code: string, current: nat)
    requires Inv(s)
    ensures var (t, outcome) := Verify(s, cfg, eligible, code, current);
            && (outcome == Done <==>
                  && eligible && s.device.Some? && s.device.value.status == Active && cfg.keyring && cfg.window <= 1
                  && exists step: nat :: StandsFor(cfg, s.device.value.secret.seed, code, current, step)
                                         && step > s.device.value.lastAcceptedStep.value)
            && (outcome != Done ==> t == s)
            && (outcome == ReplayedCode <==>
                  && eligible && s.device.Some? && s.device.value.status == Active && cfg.keyring && cfg.window <= 1
                  && exists step: nat :: StandsFor(cfg, s.device.value.secret.seed, code, current, step)
                                         && step <= s.device.value.lastAcceptedStep.value)
            && (outcome == InvalidCode <==>
                  && eligible && s.device.Some? && s.device.value.status == Active && cfg.keyring && cfg.window <= 1
                  && forall step: nat :: !StandsFor(cfg, s.device.value.secret.seed, code, current, step))
            && (outcome == Done ==>
                  && t.device.Some? && t.device.value.lastAcceptedStep.Some?
                  && var step := t.device.value.lastAcceptedStep.value;
                     && StandsFor(cfg, s.device.value.secret.seed, code, current, step)
                     && t == State(Some(s.device.value.(lastAcceptedStep := Some(step))),
                                   s.accepted + [Acceptance(s.device.value.authVersion, s.device.value.secret.seed,
                                       step)]))
  {
    hide Ordered;
    if s.device.Some? && s.device.value.status == Active {
      var seed := s.device.value.secret.seed;
      var found := FirstMatch(cfg.otp, seed, code, current - cfg.window, current + cfg.window);
      forall step: nat | StandsFor(cfg, seed, code, current, step) ensures found == Some(step) {
        assert Matches(cfg.otp, seed, code, step);
      }
      if found.Some? { assert StandsFor(cfg, seed, code, current, found.value); }
    }
  }

  /**
   A confirmation succeeds exactly for an eligible user with a pending, unexpired, readable device
   and a code within the window, and makes it active with that step spent; an expired or unreadable
   device is erased, and any other refusal changes nothing.
   */
  lemma ConfirmMeaning(s: State, cfg: Settings, eligible: bool, code: string, now: int, current: nat,
      codes: set<string>)
    ensures var (t, outcome) := Confirm(s, cfg, eligible, code, now, current, codes);
            if !eligible || s.device == None || s.device.value.status != Pending then outcome != Done && t == s else
            var d := s.device.value;
            var readable := cfg.keyring && d.secret.Sealed?;
            && (outcome == Done <==> now < d.bindingExpiresAt && readable && cfg.window <= 1
                                     && exists step: nat :: StandsFor(cfg, d.secret.seed, code, current, step))
            && (outcome == Done ==>
                  && t.device.Some? && t.device.value.lastAcceptedStep.Some?
                  && var step := t.device.value.lastAcceptedStep.value;
                     && StandsFor(cfg, d.secret.seed, code, current, step)
                     && t.device.value == d.(status := Active, lastAcceptedStep := Some(step),
                                             codes := t.device.value.codes)
                     && t.device.value.codes.Keys == codes && (forall c :: c in codes ==> !t.device.value.codes[c])
                     && t.accepted == s.accepted + [Acceptance(d.authVersion, d.secret.seed, step)])
            && (now >= d.bindingExpiresAt || !readable ==>
                  t.device.Some? && IsDestroyed(d, t.device.value) && t.accepted == s.accepted)
            && (outcome != Done && now < d.bindingExpiresAt && readable ==> t == s)
  {
    if s.device.Some? && s.device.value.secret.Sealed? {
      var seed := s.device.value.secret.seed;
      var found := FirstMatch(cfg.otp, seed, code, current - cfg.window, current + cfg.window);
      forall step: nat | StandsFor(cfg, seed, code, current, step) ensures found == Some(step) {
        assert Matches(cfg.otp, seed, code, step);
      }
      if found.Some? { assert StandsFor(cfg, seed, code, current, found.value); }
    }
  }

  /** The device is out of use: no seed, no codes, no step, and the next version. */
  ghost predicate IsDestroyed(before: Device, after: Device) {
    && after.status == Revoked && after.secret == Erased && after.codes == map[] && after.lastAcceptedStep == None
    && after.authVersion == before.authVersion + 1 && after.bindingExpiresAt == before.bindingExpiresAt
  }

  /**
   A revocation succeeds exactly for whoever may revoke a device that is still in use; on the own
   device of a superuser it moreover needs a code for a step later than the last one accepted, which
   is recorded. It destroys the device; a refusal changes nothing.
   */
  lemma RevokeMeaning(s: State, cfg: Settings, allowed: bool, own: bool, code: string, current: nat)
    ensures var (t, outcome) := Revoke(s, cfg, allowed, own, code, current);
            && (outcome != Done ==> t == s)
            && (outcome == Done <==>
                  && allowed && s.device.Some? && s.device.value.status != Revoked
                  && (own ==> exists step: nat :: IsUnspent(s.device.value, cfg, code, current, step)))
            && (outcome == Done ==>
                  && t.device.Some? && IsDestroyed(s.device.value, t.device.value)
                  && (!own ==> t.accepted == s.accepted)
                  && (own ==> exists step: nat :: RecordsUnspent(s, t, cfg, code, current, step)))
  {
    if s.device.Some? && s.device.value.secret.Sealed? {
      var seed := s.device.value.secret.seed;
      var found := FirstMatch(cfg.otp, seed, code, current - cfg.window, current + cfg.window);
      forall step: nat | StandsFor(cfg, seed, code, current, step) ensures found == Some(step) {
        assert Matches(cfg.otp, seed, code, step);
      }
      if found.Some? {
        assert StandsFor(cfg, seed, code, current, found.value);
        var (t, outcome) := Revoke(s, cfg, allowed, own, code, current);
        if outcome == Done && own { assert RecordsUnspent(s, t, cfg, code, current, found.value); }
      }
    }
  }

  ghost predicate RecordsUnspent(s: State, t: State, cfg: Settings, code: string, current: nat, step: nat) {
    && s.device.Some? && IsUnspent(s.device.value, cfg, code, current, step)
    && t.accepted == s.accepted + [Acceptance(s.device.value.authVersion, s.device.value.secret.seed, step)]
  }

  /** The code stands for this step of a readable device, and no step as late has been accepted. */
  ghost predicate IsUnspent(d: Device, cfg: Settings, code: string, current: nat, step: nat) {
    && cfg.keyring && d.secret.Sealed? && cfg.window <= 1 && StandsFor(cfg, d.secret.seed, code, current, step)
    && (d.lastAcceptedStep.Some? ==> step > d.lastAcceptedStep.value)
  }

  /**
   An enrolment starts exactly for an eligible user without an active device, under sound settings;
   it leaves a pending device with the new seed, no codes and no step, under the version of the last one.
   */
  lemma StartMeaning(s: State, cfg: Settings, eligible: bool, seed: Seed, now: int)
    ensures var (t, outcome) := Start(s, cfg, eligible, seed, now);
            && (outcome == Done <==> eligible && cfg.keyring && cfg.window <= 1
                                     && (s.device.Some? ==> s.device.value.status != Active))
            && (outcome != Done ==> t == s)
            && (outcome == Done ==>
                  && t.accepted == s.accepted && t.device.Some? && t.device.value.status == Pending
                  && t.device.value.secret == Sealed(seed) && t.device.value.codes == map[]
                  && t.device.value.lastAcceptedStep == None
                  && t.device.value.bindingExpiresAt == now + cfg.bindingTtl
                  && (s.device == None ==> t.device.value.authVersion == 1)
                  && (s.device.Some? ==> t.device.value.authVersion == s.device.value.authVersion))
  {
  }

  /** A recovery code is accepted exactly from an eligible user with an active device that has it unused. */
  lemma RecoverMeaning(s: State, eligible: bool, code: string, rebind: bool)
    ensures var (t, outcome) := Recover(s, eligible, code, rebind);
            && (outcome == Done <==> eligible && s.device.Some? && s.device.value.status == Active
                                     && code in s.device.value.codes && !s.device.value.codes[code])
            && (outcome != Done ==> t == s) && t.accepted == s.accepted
            && (outcome == Done ==>
                  && t.device.Some?
                  && if rebind then IsDestroyed(s.device.value, t.device.value)
                     else t.device.value == s.device.value.(codes := s.device.value.codes[code := true]))
  {
  }

  lemma RunGoesOn(s: State, steps: seq<(Step, Settings)>, step: Step, cfg: Settings)
    ensures Run(s, steps + [(step, cfg)]) == Apply(Run(s, steps), step, cfg)
  {
    hide Apply;
    assert (steps + [(step, cfg)])[..|steps|] == steps;
  }

  /** A new user can enrol, confirm with the code of the moment, and verify with that of any later one. */
  lemma EnrolmentCompletes(cfg: Settings, seed: Seed, codes: set<string>, first: nat, second: nat)
    requires cfg.keyring && cfg.window == 0 && cfg.bindingTtl > 0 && first < second
    ensures var start := [(StartStep(true, seed, 0), cfg)];
            var confirmed := start + [(ConfirmStep(true, cfg.otp(seed, first), 0, first, codes), cfg)];
            var verified := confirmed + [(VerifyStep(true, cfg.otp(seed, second), second), cfg)];
            Run(State(None, []), verified).accepted == [Acceptance(1, seed, first), Acceptance(1, seed, second)]
  {
    hide FreshCodes, Run;
    var s0 := State(None, []);
    assert Run(s0, []) == s0 by { NothingYet(s0); }
    assert [] + [(StartStep(true, seed, 0), cfg)] == [(StartStep(true, seed, 0), cfg)];
    RunGoesOn(s0, [], StartStep(true, seed, 0), cfg);
    var start := [(StartStep(true, seed, 0), cfg)];
    RunGoesOn(s0, start, ConfirmStep(true, cfg.otp(seed, first), 0, first, codes), cfg);
    RunGoesOn(s0, start + [(ConfirmStep(true, cfg.otp(seed, first), 0, first, codes), cfg)],
        VerifyStep(true, cfg.otp(seed, second), second), cfg);
    MomentMatches(cfg.otp, seed, first);
    MomentMatches(cfg.otp, seed, second);
  }

  lemma NothingYet(s: State)
    ensures Run(s, []) == s
  {
  }

  lemma MomentMatches(otp: (Seed, nat) -> string, seed: Seed, step: nat)
    ensures FirstMatch(otp, seed, otp(seed, step), step, step) == Some(step)
  {
  }
}
