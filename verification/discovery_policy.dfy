/** A reference description of the two triggers, independent of their nested `if`s: each
    check is stated on its own, the checks are listed in the order the handlers run them,
    and the reply is the error of the first check that fails. */
module DiscoveryPolicy {
  import opened Wrappers
  import opened Decimal
  import opened Precedence
  import opened DiscoveryController

  datatype Check =
    | BodyUnreadable
    | ScannerMissing
    | ServiceIsLocked
    | PayloadMalformed
    | DeviceUnknown
    | ProfileDuplicated
    | ScanInProgress
    | DiscoveryOff

  const ValidationOrder: seq<Check> := [ServiceIsLocked, PayloadMalformed, DeviceUnknown, ProfileDuplicated]

  const ProfileScanOrder: seq<Check> := [BodyUnreadable, ScannerMissing] + ValidationOrder + [ScanInProgress]

  const DiscoveryOrder: seq<Check> := [ServiceIsLocked, DiscoveryOff]

  /** Whether a check of the validator fails, each taken on its own. */
  predicate ValidationCheckFails(c: Check, svc: Service, payload: Option<ScanPayload>) {
    match c
    case ServiceIsLocked => svc.adminState == Locked
    case PayloadMalformed => payload.None?
    case DeviceUnknown => payload.Some? && payload.value.deviceName !in svc.devices
    case ProfileDuplicated =>
      payload.Some? && payload.value.profileName != "" && payload.value.profileName in svc.profiles
    case _ => false
  }

  /** Whether a check of the profile-scan trigger fails, each taken on its own. */
  predicate ProfileScanCheckFails(c: Check, body: Body, svc: Service, busy: bool) {
    match c
    case BodyUnreadable => body.Unreadable?
    case ScannerMissing => !svc.scannerInstalled
    case ScanInProgress => busy
    case DiscoveryOff => false
    case _ => body.Read? && ValidationCheckFails(c, svc, body.payload)
  }

  /** Whether a check of the discovery trigger fails. */
  predicate DiscoveryCheckFails(c: Check, svc: Service) {
    match c
    case ServiceIsLocked => svc.adminState == Locked
    case DiscoveryOff => !svc.discoveryEnabled
    case _ => false
  }

  function ValidationFailures(svc: Service, payload: Option<ScanPayload>): set<Check> {
    set c | c in ValidationOrder && ValidationCheckFails(c, svc, payload)
  }

  function ProfileScanFailures(body: Body, svc: Service, busy: bool): set<Check> {
    set c | c in ProfileScanOrder && ProfileScanCheckFails(c, body, svc, busy)
  }

  function DiscoveryFailures(svc: Service): set<Check> {
    set c | c in DiscoveryOrder && DiscoveryCheckFails(c, svc)
  }

  /** The error each check raises; names come from the payload or the resolved request. */
  function CheckError(c: Check, payload: Option<ScanPayload>): EdgexError {
    var deviceName := if payload.Some? then payload.value.deviceName else "";
    var profileName := if payload.Some? then payload.value.profileName else "";
    match c
    case BodyUnreadable => BodyReadError
    case ScannerMissing => ScannerMissingError
    case ServiceIsLocked => LockedError
    case PayloadMalformed => PayloadInvalidError
    case DeviceUnknown => DeviceNotFoundError(deviceName)
    case ProfileDuplicated => DuplicateProfileError(profileName)
    case ScanInProgress => ScanBusyError(deviceName)
    case DiscoveryOff => DiscoveryDisabledError
  }

  /** The validator fails exactly when some check fails, with the error of the first. */
  lemma ValidationFollowsPolicy(svc: Service, payload: Option<ScanPayload>, timestamp: Int64)
    ensures var first := FirstFailing(ValidationOrder, ValidationFailures(svc, payload));
      var r := ProfileScanValidation(svc, payload, timestamp);
      && (r.Failure? <==> first.Some?)
      && (r.Failure? ==> r.error == CheckError(first.value, payload))
  {
    var failing := ValidationFailures(svc, payload);
    var i := FirstFailingIndex(ValidationOrder, failing);
    if svc.adminState == Locked {
      assert ServiceIsLocked in failing;
      assert i == 0;
    } else if payload.None? {
      assert PayloadMalformed in failing;
      assert i == 1;
    } else {
      var req := payload.value;
      if req.deviceName !in svc.devices {
        assert DeviceUnknown in failing;
        assert i == 2;
      } else if req.profileName != "" && req.profileName in svc.profiles {
        assert ProfileDuplicated in failing;
        assert i == 3;
      } else {
        assert failing == {};
      }
    }
  }

  /** Once the body is read and a scanner is installed, the failing checks of the trigger are
      those of the validator, plus the busy check. */
  lemma ProfileScanFailuresAfterTransport(body: Body, svc: Service, busy: bool)
    requires body.Read? && svc.scannerInstalled
    ensures ProfileScanFailures(body, svc, busy)
         == ValidationFailures(svc, body.payload) + (if busy then {ScanInProgress} else {})
  {
  }

  /** Once the body is read and a scanner is installed, the first failing check of the trigger
      is the validator's first failing check, or else the busy check. */
  lemma FirstFailingAfterTransport(body: Body, svc: Service, busy: bool)
    requires body.Read? && svc.scannerInstalled
    ensures var vFirst := FirstFailing(ValidationOrder, ValidationFailures(svc, body.payload));
      FirstFailing(ProfileScanOrder, ProfileScanFailures(body, svc, busy))
      == if vFirst.Some? then vFirst else if busy then Some(ScanInProgress) else None
  {
    var failing := ProfileScanFailures(body, svc, busy);
    var i := FirstFailingIndex(ProfileScanOrder, failing);
    var vFailing := ValidationFailures(svc, body.payload);
    var vi := FirstFailingIndex(ValidationOrder, vFailing);
    ProfileScanFailuresAfterTransport(body, svc, busy);
    assert ProfileScanOrder == [BodyUnreadable, ScannerMissing] + ValidationOrder + [ScanInProgress];
    if vi < |ValidationOrder| {
      assert ProfileScanOrder[vi + 2] == ValidationOrder[vi];
      assert i == vi + 2;
    } else if busy {
      assert ProfileScanOrder[6] == ScanInProgress;
      assert i == 6;
    } else {
      assert failing == {};
    }
  }

  /** The policy of the trigger once the body is read and a scanner is installed: the first
      failing validation check, then the busy check. */
  lemma ProfileScanPolicyAfterTransport(body: Body, svc: Service, timestamp: Int64, busy: bool, correlationId: string)
    requires body.Read? && svc.scannerInstalled
    ensures var first := FirstFailing(ProfileScanOrder, ProfileScanFailures(body, svc, busy));
      var d := ProfileScan(body, svc, timestamp, busy, correlationId);
      && (d.outcome.Rejected? <==> first.Some?)
      && (d.outcome.Rejected? ==> d.outcome.error == CheckError(first.value, body.payload))
  {
    FirstFailingAfterTransport(body, svc, busy);
    ValidationFollowsPolicy(svc, body.payload, timestamp);
  }

  /** The profile-scan trigger rejects exactly when some check fails, with the error of the first;
      otherwise it accepts. */
  lemma ProfileScanFollowsPolicy(body: Body, svc: Service, timestamp: Int64, busy: bool, correlationId: string)
    ensures var first := FirstFailing(ProfileScanOrder, ProfileScanFailures(body, svc, busy));
      var d := ProfileScan(body, svc, timestamp, busy, correlationId);
      && (d.outcome.Rejected? <==> first.Some?)
      && (d.outcome.Rejected? ==> d.outcome.error == CheckError(first.value, if body.Read? then body.payload else None))
  {
    var failing := ProfileScanFailures(body, svc, busy);
    var i := FirstFailingIndex(ProfileScanOrder, failing);
    assert ProfileScanOrder[0] == BodyUnreadable && ProfileScanOrder[1] == ScannerMissing;
    if body.Unreadable? {
      assert BodyUnreadable in failing;
      assert i == 0;
    } else if !svc.scannerInstalled {
      assert ScannerMissing in failing;
      assert i == 1;
    } else {
      ProfileScanPolicyAfterTransport(body, svc, timestamp, busy, correlationId);
    }
  }

  /** The discovery trigger rejects exactly when a check fails, with the error of the first. */
  lemma DiscoveryFollowsPolicy(svc: Service, correlationId: string)
    ensures var first := FirstFailing(DiscoveryOrder, DiscoveryFailures(svc));
      var d := Discovery(svc, correlationId);
      && (d.outcome.Rejected? <==> first.Some?)
      && (d.outcome.Rejected? ==> d.outcome.error == CheckError(first.value, None))
  {
    var failing := DiscoveryFailures(svc);
    var i := FirstFailingIndex(DiscoveryOrder, failing);
    if svc.adminState == Locked {
      assert ServiceIsLocked in failing;
      assert i == 0;
    } else if !svc.discoveryEnabled {
      assert DiscoveryOff in failing;
      assert i == 1;
    } else {
      assert failing == {};
    }
  }
}
