/** The REST handlers that trigger device discovery and profile scanning, and the validator
    of a profile-scan request, as total functions of a snapshot of the service's state.

    What the handlers read from the dependency container and the caches (admin state,
    discovery flag, whether a profile scanner is installed, the device and profile caches)
    is a `Service` value; the request body is a `Body` that is either unreadable or carries
    the result of JSON decoding; the clock reading and the busy signal the background scan
    wrapper sends back are plain inputs. */
module DiscoveryController {
  import opened Wrappers
  import opened Decimal

  /** A device service's administrative state; the handlers only compare it with `Locked`. */
  datatype AdminState = Locked | Unlocked

  /** The kinds of EdgeX error the handlers raise. */
  datatype ErrorKind =
    | ServiceLocked
    | ServiceUnavailable
    | ContractInvalid
    | EntityDoesNotExist
    | StatusConflict
    | ServerError
    | NotImplemented

  /** An EdgeX error as these handlers build it: a kind and a message (wrapped causes dropped). */
  datatype EdgexError = CommonEdgeX(kind: ErrorKind, message: string)

  /** HTTP 202, the status of every accepted trigger. */
  const StatusAccepted: int := 202

  /** The body of a successful response. */
  datatype BaseResponse = BaseResponse(requestId: string, message: string, statusCode: int)

  /** What a handler sends back to its caller. */
  datatype Outcome = Accepted(response: BaseResponse) | Rejected(error: EdgexError)

  /** A protocol's properties; `any`-valued in the Go models, modelled here as strings. */
  type ProtocolProperties = map<string, string>

  type Protocols = map<string, ProtocolProperties>

  /** Scan options; `any` in the Go request type and only ever copied, modelled as a string map. */
  type Options = map<string, string>

  /** A device as the device cache holds it under its name; only its protocols are used here. */
  datatype Device = Device(protocols: Protocols)

  /** The state the handlers read: admin state, configuration, the installed scanner and the caches. */
  datatype Service = Service(
    adminState: AdminState,
    discoveryEnabled: bool,
    scannerInstalled: bool,
    devices: map<string, Device>,
    profiles: set<string>)

  /** The decoded JSON payload of a profile-scan request. */
  datatype ScanPayload = ScanPayload(deviceName: string, profileName: string, options: Options)

  /** The request the validator resolves and hands to the background scan. */
  datatype ScanRequest = ScanRequest(
    deviceName: string,
    profileName: string,
    options: Options,
    protocols: Protocols)

  /** The request body: unreadable, or read and then decoded (`None` when decoding failed). */
  datatype Body = Unreadable | Read(payload: Option<ScanPayload>)

  /** A profile-scan decision: the reply, and the request handed to the background scan wrapper
      (`None` when the handler returned before starting it). */
  datatype ScanDecision = ScanDecision(outcome: Outcome, launched: Option<ScanRequest>)

  /** A discovery decision: the reply, and whether a discovery sweep was started. */
  datatype DiscoveryDecision = DiscoveryDecision(outcome: Outcome, sweepLaunched: bool)

  // The errors the handlers raise, with the Go handlers' messages.

  const LockedError := CommonEdgeX(ServiceLocked, "service locked")
  const DiscoveryDisabledError := CommonEdgeX(ServiceUnavailable, "device discovery disabled")
  const BodyReadError := CommonEdgeX(ServerError, "Failed to read request body")
  const ScannerMissingError := CommonEdgeX(NotImplemented, "Profile scan is not implemented")
  const PayloadInvalidError := CommonEdgeX(ContractInvalid, "failed to parse request body")

  function DeviceNotFoundError(deviceName: string): EdgexError {
    CommonEdgeX(EntityDoesNotExist, "device " + deviceName + " not found")
  }

  function DuplicateProfileError(profileName: string): EdgexError {
    CommonEdgeX(StatusConflict, "profile name " + profileName + " is duplicated")
  }

  function ScanBusyError(deviceName: string): EdgexError {
    CommonEdgeX(StatusConflict, "Another profile scan process for " + deviceName + " is currently running")
  }

  /** The profile name made up when the caller gives none: `<device>_profile_<timestamp>`. */
  function SynthesizedProfileName(deviceName: string, timestamp: Int64): (name: string)
    ensures |name| > |deviceName| + 9
    ensures name[..|deviceName|] == deviceName
    ensures name[|deviceName|..|deviceName| + 9] == "_profile_"
    ensures name[|deviceName| + 9..] == FormatInt(timestamp)
    ensures ParseInt(name[|deviceName| + 9..]) == timestamp
  {
    var name := deviceName + "_profile_" + FormatInt(timestamp);
    assert name[|deviceName| + 9..] == FormatInt(timestamp);
    ParseFormatInt(timestamp);
    name
  }

  /** Checks a profile-scan request against the service state and resolves it. */
  function ProfileScanValidation(svc: Service, payload: Option<ScanPayload>, timestamp: Int64)
    : (r: Result<ScanRequest, EdgexError>)
    ensures r.Success? ==> svc.adminState != Locked && payload.Some?
    ensures r.Success? ==>
      && r.value.deviceName == payload.value.deviceName
      && r.value.deviceName in svc.devices
      && r.value.protocols == svc.devices[r.value.deviceName].protocols
      && r.value.options == payload.value.options
      && r.value.profileName != ""
    ensures r.Success? && payload.value.profileName != "" ==>
      r.value.profileName == payload.value.profileName && r.value.profileName !in svc.profiles
    ensures r.Success? && payload.value.profileName == "" ==>
      r.value.profileName == SynthesizedProfileName(payload.value.deviceName, timestamp)
  {
    if svc.adminState == Locked then Failure(LockedError)
    else if payload.None? then Failure(PayloadInvalidError)
    else
      var req := payload.value;
      if req.deviceName !in svc.devices then Failure(DeviceNotFoundError(req.deviceName))
      else if req.profileName != "" && req.profileName in svc.profiles then
        Failure(DuplicateProfileError(req.profileName))
      else
        var profileName :=
          if req.profileName != "" then req.profileName
          else SynthesizedProfileName(req.deviceName, timestamp);
        Success(ScanRequest(req.deviceName, profileName, req.options, svc.devices[req.deviceName].protocols))
  }

  /** The discovery trigger. */
  function Discovery(svc: Service, correlationId: string): (d: DiscoveryDecision)
    ensures d.sweepLaunched <==> d.outcome.Accepted?
    ensures d.outcome.Accepted? ==>
      d.outcome.response.statusCode == StatusAccepted
      && d.outcome.response.message == "Trigger discovery with correlationId " + correlationId
  {
    if svc.adminState == Locked then DiscoveryDecision(Rejected(LockedError), false)
    else if !svc.discoveryEnabled then DiscoveryDecision(Rejected(DiscoveryDisabledError), false)
    else
      var message := "Trigger discovery with correlationId " + correlationId;
      DiscoveryDecision(Accepted(BaseResponse("", message, StatusAccepted)), true)
  }

  /** The profile-scan trigger; `busy` is what the background scan wrapper reports back once it
      has been handed the resolved request. */
  function ProfileScan(body: Body, svc: Service, timestamp: Int64, busy: bool, correlationId: string)
    : (d: ScanDecision)
    ensures d.launched.Some? <==>
      body.Read? && svc.scannerInstalled && ProfileScanValidation(svc, body.payload, timestamp).Success?
    ensures d.launched.Some? ==> d.launched.value == ProfileScanValidation(svc, body.payload, timestamp).value
    ensures d.outcome.Accepted? <==> d.launched.Some? && !busy
    ensures d.outcome.Accepted? ==>
      d.outcome.response.statusCode == StatusAccepted
      && d.outcome.response.message == "Trigger profile scan with correlationId " + correlationId
  {
    if body.Unreadable? then ScanDecision(Rejected(BodyReadError), None)
    else if !svc.scannerInstalled then ScanDecision(Rejected(ScannerMissingError), None)
    else
      match ProfileScanValidation(svc, body.payload, timestamp)
      case Failure(e) => ScanDecision(Rejected(e), None)
      case Success(req) =>
        if busy then ScanDecision(Rejected(ScanBusyError(req.deviceName)), Some(req))
        else
          var message := "Trigger profile scan with correlationId " + correlationId;
          ScanDecision(Accepted(BaseResponse("", message, StatusAccepted)), Some(req))
  }
}
