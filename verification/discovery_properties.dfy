/** Properties of the discovery and profile-scan triggers: check precedence, where each field
    of the resolved request comes from, and what the synthesized profile name guarantees. */
module DiscoveryProperties {
  import opened Wrappers
  import opened Decimal
  import opened DiscoveryController

  /** A locked service rejects validation whatever the payload, caches or clock say. */
  lemma LockedValidationRejects(svc: Service, payload: Option<ScanPayload>, timestamp: Int64)
    requires svc.adminState == Locked
    ensures ProfileScanValidation(svc, payload, timestamp) == Failure(LockedError)
  {
  }

  /** Unlocked, an undecodable payload is ContractInvalid, and no cache lookup changes that. */
  lemma MalformedPayloadIgnoresCaches(svc: Service, svc': Service, timestamp: Int64, timestamp': Int64)
    requires svc.adminState == Unlocked && svc'.adminState == Unlocked
    ensures ProfileScanValidation(svc, None, timestamp) == ProfileScanValidation(svc', None, timestamp')
    ensures ProfileScanValidation(svc, None, timestamp) == Failure(PayloadInvalidError)
  {
  }

  /** An unknown device is reported before the profile name is looked at. */
  lemma UnknownDeviceBeforeDuplicateName(svc: Service, req: ScanPayload, timestamp: Int64)
    requires svc.adminState == Unlocked && req.deviceName !in svc.devices
    ensures ProfileScanValidation(svc, Some(req), timestamp) == Failure(DeviceNotFoundError(req.deviceName))
    ensures ProfileScanValidation(svc, Some(req), timestamp)
         == ProfileScanValidation(svc.(profiles := svc.profiles + {req.profileName}), Some(req), timestamp)
  {
  }

  /** A caller-supplied profile name is a conflict exactly when it already names a profile,
      and otherwise it is kept as given. */
  lemma SuppliedProfileName(svc: Service, req: ScanPayload, timestamp: Int64)
    requires svc.adminState == Unlocked && req.deviceName in svc.devices && req.profileName != ""
    ensures var r := ProfileScanValidation(svc, Some(req), timestamp);
      && (r.Failure? <==> req.profileName in svc.profiles)
      && (r.Failure? ==> r.error == DuplicateProfileError(req.profileName))
      && (r.Success? ==> r.value.profileName == req.profileName)
  {
  }

  /** Without a profile name the request is accepted under `<device>_profile_<timestamp>`,
      and the resolved request takes the payload's device and options and the cached protocols. */
  lemma EmptyProfileNameSynthesized(svc: Service, req: ScanPayload, timestamp: Int64)
    requires svc.adminState == Unlocked && req.deviceName in svc.devices && req.profileName == ""
    ensures ProfileScanValidation(svc, Some(req), timestamp)
         == Success(ScanRequest(req.deviceName, req.deviceName + "_profile_" + FormatInt(timestamp),
                                req.options, svc.devices[req.deviceName].protocols))
  {
  }

  /** Two clock readings that differ give two different synthesized names for the same device. */
  lemma SynthesizedNamesDistinct(deviceName: string, t: Int64, t': Int64)
    requires t != t'
    ensures SynthesizedProfileName(deviceName, t) != SynthesizedProfileName(deviceName, t')
  {
  }

  /** The synthesized name is not looked up in the profile cache: a request is accepted even
      when a profile of that name already exists. */
  lemma SynthesizedNameNotCheckedForDuplicates(svc: Service, req: ScanPayload, timestamp: Int64)
    requires svc.adminState == Unlocked && req.deviceName in svc.devices && req.profileName == ""
    requires SynthesizedProfileName(req.deviceName, timestamp) in svc.profiles
    ensures var r := ProfileScanValidation(svc, Some(req), timestamp);
      r.Success? && r.value.profileName in svc.profiles
  {
  }

  /** Discovery: locked is reported before the enabled flag, disabled next, and otherwise the
      sweep starts and 202 is returned. */
  lemma DiscoveryOutcomes(svc: Service, correlationId: string)
    ensures svc.adminState == Locked ==>
      Discovery(svc, correlationId) == DiscoveryDecision(Rejected(LockedError), false)
    ensures svc.adminState == Unlocked && !svc.discoveryEnabled ==>
      Discovery(svc, correlationId) == DiscoveryDecision(Rejected(DiscoveryDisabledError), false)
    ensures svc.adminState == Unlocked && svc.discoveryEnabled ==>
      Discovery(svc, correlationId).sweepLaunched
      && Discovery(svc, correlationId).outcome.Accepted?
  {
  }

  /** A body that cannot be read, then a missing scanner, take precedence over every other
      check, including the service lock. */
  lemma TransportChecksPrecedeLock(body: Body, svc: Service, timestamp: Int64, busy: bool, correlationId: string)
    ensures body.Unreadable? ==>
      ProfileScan(body, svc, timestamp, busy, correlationId) == ScanDecision(Rejected(BodyReadError), None)
    ensures body.Read? && !svc.scannerInstalled ==>
      ProfileScan(body, svc, timestamp, busy, correlationId) == ScanDecision(Rejected(ScannerMissingError), None)
  {
  }

  /** Once the body is read and a scanner is installed, a locked service rejects the scan
      whatever the payload, caches, clock or busy signal say, and nothing is started. */
  lemma LockedProfileScanRejects(body: Body, svc: Service, timestamp: Int64, busy: bool, correlationId: string)
    requires body.Read? && svc.scannerInstalled && svc.adminState == Locked
    ensures ProfileScan(body, svc, timestamp, busy, correlationId) == ScanDecision(Rejected(LockedError), None)
  {
  }

  /** Past those two checks, a validation error is returned unchanged and nothing is started. */
  lemma ValidationErrorReturnedAsIs(body: Body, svc: Service, timestamp: Int64, busy: bool, correlationId: string)
    requires body.Read? && svc.scannerInstalled
    requires ProfileScanValidation(svc, body.payload, timestamp).Failure?
    ensures ProfileScan(body, svc, timestamp, busy, correlationId)
         == ScanDecision(Rejected(ProfileScanValidation(svc, body.payload, timestamp).error), None)
  {
  }

  /** A valid request is handed to the background scan; a busy report turns the reply into a
      conflict naming the device, and otherwise 202 is returned. */
  lemma BusyScanConflicts(body: Body, svc: Service, timestamp: Int64, busy: bool, correlationId: string)
    requires body.Read? && svc.scannerInstalled
    requires ProfileScanValidation(svc, body.payload, timestamp).Success?
    ensures var req := ProfileScanValidation(svc, body.payload, timestamp).value;
      var d := ProfileScan(body, svc, timestamp, busy, correlationId);
      && d.launched == Some(req)
      && (busy ==> d.outcome == Rejected(ScanBusyError(req.deviceName)))
      && (!busy ==> d.outcome.Accepted?)
  {
  }

  /** A duplicate profile name is a conflict whether or not a scan of the device is running,
      and its message differs from the busy conflict's. */
  lemma DuplicateNameIndependentOfBusy(svc: Service, req: ScanPayload, timestamp: Int64, correlationId: string)
    requires svc.adminState == Unlocked && svc.scannerInstalled && req.deviceName in svc.devices
    requires req.profileName != "" && req.profileName in svc.profiles
    ensures ProfileScan(Read(Some(req)), svc, timestamp, true, correlationId)
         == ProfileScan(Read(Some(req)), svc, timestamp, false, correlationId)
         == ScanDecision(Rejected(DuplicateProfileError(req.profileName)), None)
    ensures DuplicateProfileError(req.profileName) != ScanBusyError(req.deviceName)
  {
    var dup := DuplicateProfileError(req.profileName).message;
    var bus := ScanBusyError(req.deviceName).message;
    assert dup[0] == 'p' && bus[0] == 'A';
  }
}
