# Discovery / profile-scan triggers and the NaN check of device-sdk-go, in Dafny

This project models two small decision procedures of the EdgeX device SDK for Go.

- The REST handlers of `internal/controller/http/discovery.go`:
  - `Discovery` starts a device-discovery sweep.
  - `ProfileScan` starts a profile scan of one device.
  - `profileScanValidation` checks and resolves a profile-scan request.

  Each is a total function from a snapshot of the service to a tagged outcome. The snapshot holds:
  - the admin state;
  - the discovery flag;
  - whether a profile scanner is installed;
  - the device and profile caches.

  Further inputs are the read-and-decoded request body, the clock reading and the busy signal that the background scan wrapper sends back.
- `isNaN` of `internal/transformer/checkNaN.go`, which classifies a command value by its type tag. It is modelled over an abstract decoded float: NaN, an infinity, or a finite real.

Modules:
- `Wrappers`: `Option` and `Result`.
- `Decimal`: `%d` rendering of an `int64` and its inverse. Used for the synthesized profile name.
- `Precedence`: the index of the first failing check in a fixed order. This is a reference description of "return at the first failing check".
- `DiscoveryController`: the data model and the three functions.
- `DiscoveryPolicy`: each check stated on its own, plus the order the handlers run them in. It has lemmas showing that each handler replies with the error of the first failing check.
- `DiscoveryProperties`: precedence, field-provenance and naming properties.
- `CheckNaN`: the NaN classifier and its characterisation.

Behaviour of the Go code worth noting:
- The classifier returns `true` for NaN, and `false` for infinities.
- An unknown device raises `EntityDoesNotExist`.
- A missing scanner raises `NotImplemented`.
- `ProfileScan` reports an unreadable body (`ServerError`) and a missing scanner (`NotImplemented`) before it looks at the lock state (`TransportChecksPrecedeLock`).
- A synthesized profile name is not checked against the profile cache, so it is accepted even if a profile of that name exists (`SynthesizedNameNotCheckedForDuplicates`). Different clock readings do give different names for the same device (`SynthesizedNamesDistinct`).

## Model

| member | source | states |
|---|---|---|
| DiscoveryController.ProfileScanValidation | internal/controller/http/discovery.go:99-137 | Success only when the service is unlocked and the payload decoded. The resolved request has the payload's device name and options and the cached device's protocols. Its profile name is never empty. A supplied name is kept and is absent from the profile cache. An empty name is replaced by `<device>_profile_<timestamp>`. |
| DiscoveryController.SynthesizedProfileName | internal/controller/http/discovery.go:126 | The made-up name is the device name, then `_profile_`, then a numeral that reads back as the timestamp. |
| DiscoveryController.Discovery | internal/controller/http/discovery.go:31-56 | A sweep is started exactly when the reply is Accepted. An Accepted reply carries 202 and a message naming the correlation id. |
| DiscoveryController.ProfileScan | internal/controller/http/discovery.go:58-97 | The validated request is handed to the background scan wrapper exactly when the body was read, a scanner is installed and validation succeeded. The request handed over is the validated one. The reply is Accepted exactly when the request was handed over and the busy signal is false. Accepted carries 202 and the correlation id. |
| DiscoveryPolicy.ValidationFollowsPolicy | internal/controller/http/discovery.go:99-137 | Validation fails exactly when one of the checks (locked, undecodable, unknown device, duplicate supplied name) fails. It fails with the error of the first failing check in that order. |
| DiscoveryPolicy.ProfileScanFollowsPolicy | internal/controller/http/discovery.go:58-97 | `ProfileScan` rejects exactly when some check fails. The order is: unreadable body, missing scanner, the validation checks, busy. The error is that of the first failing check. |
| DiscoveryPolicy.FirstFailingAfterTransport | internal/controller/http/discovery.go:77-93 | Once the body is read and a scanner is installed, the handler's first failing check is the validator's first failing check, or else the busy check. |
| DiscoveryPolicy.DiscoveryFollowsPolicy | internal/controller/http/discovery.go:31-56 | `Discovery` rejects exactly when the service is locked or discovery is disabled. The lock error comes first. |
| DiscoveryProperties.LockedValidationRejects | internal/controller/http/discovery.go:102-105 | Locked gives ServiceLocked for any payload, caches and timestamp. |
| DiscoveryProperties.MalformedPayloadIgnoresCaches | internal/controller/http/discovery.go:108-112 | Unlocked with an undecodable payload gives ContractInvalid. The result is the same for any caches and any timestamp. |
| DiscoveryProperties.UnknownDeviceBeforeDuplicateName | internal/controller/http/discovery.go:115-124 | An unknown device gives EntityDoesNotExist naming it. Adding the requested profile name to the profile cache does not change the result. |
| DiscoveryProperties.SuppliedProfileName | internal/controller/http/discovery.go:121-131 | A non-empty name fails exactly when it is in the profile cache, and the failure is StatusConflict. Otherwise the name is passed through unchanged. |
| DiscoveryProperties.EmptyProfileNameSynthesized | internal/controller/http/discovery.go:125-136 | An empty name resolves to device + `_profile_` + decimal timestamp, with the payload's options and the cached device's protocols. |
| DiscoveryProperties.SynthesizedNamesDistinct | internal/controller/http/discovery.go:126 | Different timestamps give different synthesized names for the same device. |
| DiscoveryProperties.SynthesizedNameNotCheckedForDuplicates | internal/controller/http/discovery.go:120-127 | A synthesized name that already names a profile is still accepted. |
| DiscoveryProperties.DiscoveryOutcomes | internal/controller/http/discovery.go:35-55 | Locked gives ServiceLocked even when discovery is disabled. Unlocked and disabled gives ServiceUnavailable. Otherwise the sweep starts and the reply is Accepted. |
| DiscoveryProperties.TransportChecksPrecedeLock | internal/controller/http/discovery.go:65-75 | An unreadable body gives ServerError. A missing scanner then gives NotImplemented. Both hold whatever the lock state, payload or busy signal, and nothing is started. |
| DiscoveryProperties.LockedProfileScanRejects | internal/controller/http/discovery.go:65-80 | With a readable body and a scanner, a locked service rejects the scan with ServiceLocked and nothing is started. |
| DiscoveryProperties.ValidationErrorReturnedAsIs | internal/controller/http/discovery.go:77-80 | A validation error is the handler's reply unchanged, and no scan is started. |
| DiscoveryProperties.BusyScanConflicts | internal/controller/http/discovery.go:82-96 | A valid request is always handed to the background wrapper. A busy report gives StatusConflict naming the device. Otherwise the reply is Accepted. |
| DiscoveryProperties.DuplicateNameIndependentOfBusy | internal/controller/http/discovery.go:121-124 | A duplicate supplied name is rejected the same way whatever the busy signal. Its message differs from the busy conflict's. |
| Decimal.FormatInt | internal/controller/http/discovery.go:126 | The rendering is never empty. It starts with a minus sign exactly for negative values, followed by only digits, with no leading zero unless the value is 0. |
| Decimal.ParseFormatInt | internal/controller/http/discovery.go:126 | `ParseInt` reads the `%d` rendering back to the same integer. |
| Decimal.FormatIntInjective | internal/controller/http/discovery.go:126 | Printing an integer with `%d` is injective. |
| CheckNaN.CheckIsNaN | internal/transformer/checkNaN.go:18-38 | The result is never (true, error). For each float type, there is an error exactly when that type's decoder fails, and it wraps the decoder's error. Otherwise the result says NaN exactly when the decoded value is NaN. Only float types can give NaN or an error. |
| CheckNaN.Widen | internal/transformer/checkNaN.go:25 | Widening float32 to float64 keeps NaN-ness, infinities with their sign, and finite values. |
| CheckNaN.CheckIsNaNMatchesReading | internal/transformer/checkNaN.go:18-38 | Three cases, each an if-and-only-if. (true, none) exactly when a float-typed value decodes to NaN. An error exactly when its decoder fails. (false, none) exactly when the type is not a float or the value decodes to a non-NaN. |
| CheckNaN.OtherTypesAreNotDecoded | internal/transformer/checkNaN.go:19-37 | Any other type tag gives (false, none) whatever its decoders would return. |
| CheckNaN.OnlyOwnDecoderIsConsulted | internal/transformer/checkNaN.go:20-35 | A Float32 value's result does not depend on the float64 decoder, and the other way round. |
| CheckNaN.NonNaNFloatsPass | internal/transformer/checkNaN.go:25-37 | Finite values and infinities of either sign give (false, none) for both float widths. |

## Left out
- Goroutines and the busy channel rendezvous: concurrency. `ProfileScan` takes the received busy value as an input.
- The per-device guard behind the busy value: it is in `application.ProfileScanWrapper`, which is not part of this model.
- The discovery sweep and the profile scan themselves (`autodiscovery.DiscoveryWrapper`, the scanner): opaque driver calls. For discovery, the model records whether the sweep was started. For profile scan, it records whether the wrapper was called and with which request. Whether the wrapper then runs the scan is not modelled.
- Echo request/response plumbing, `sendResponse`/`sendEdgexError`, logging and the mapping of error kinds to HTTP status codes: transport. Accepted replies keep the 202 status and the correlation id.
- JSON decoding of the body: it is an input, `Option<ScanPayload>`. Validation done inside the decoder is not modelled.
- `time.Now().UnixNano()`: the timestamp is an `int64` input. Uniqueness across calls depends on the clock.
- The dependency-injection container and the caches: an immutable `Service` value with a device map and a set of profile names.
- Causes wrapped inside EdgeX errors, and the kind that `NewCommonEdgeXWrapper` derives: errors keep a kind and message only. For `isNaN`, the error is the wrapped decoder error.
- IEEE-754 bit patterns and `CommandValue` byte decoding: a decoded float is NaN, an infinity or a finite real. The decoders' results are fields of the command value.
