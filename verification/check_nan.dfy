/** The NaN classifier of a command value. IEEE-754 encodings are abstracted away: a decoded
    float is NaN, an infinity, or a finite real, and the decoders of a command value are
    given by their results. */
module CheckNaN {
  import opened Wrappers

  /** The value-type tags the classifier dispatches on. */
  const ValueTypeFloat32: string := "Float32"
  const ValueTypeFloat64: string := "Float64"

  /** A decoded floating-point value, up to what the classifier can observe. */
  datatype Float = NaN | Inf(negative: bool) | Finite(value: real)

  /** The reason a decoder gave for not producing a value. */
  datatype DecodeError = DecodeError(reason: string)

  /** A command value: its type tag, and what its float32 and float64 decoders return. */
  datatype CommandValue = CommandValue(
    valueType: string,
    float32Value: Result<Float, DecodeError>,
    float64Value: Result<Float, DecodeError>)

  /** An EdgeX error wrapping a decoder's error. */
  datatype WrappedError = Wrapped(cause: DecodeError)

  /** The classifier's pair: whether the value is NaN, and an error. */
  datatype Verdict = Verdict(isNaN: bool, err: Option<WrappedError>)

  predicate IsNaN(f: Float) {
    f.NaN?
  }

  /** The exact conversion of a float32 to a float64: every value, sign and NaN survives. */
  function Widen(f: Float): (g: Float)
    ensures IsNaN(g) <==> IsNaN(f)
    ensures g.Inf? <==> f.Inf?
    ensures f.Inf? ==> g.negative == f.negative
    ensures f.Finite? ==> g.Finite? && g.value == f.value
  {
    match f
    case NaN => NaN
    case Inf(negative) => Inf(negative)
    case Finite(v) => Finite(v)
  }

  predicate IsFloatType(t: string) {
    t == ValueTypeFloat32 || t == ValueTypeFloat64
  }

  /** The decoder the classifier consults for a float-typed value, with float32 results widened. */
  function FloatReading(cv: CommandValue): Result<Float, DecodeError>
    requires IsFloatType(cv.valueType)
  {
    if cv.valueType == ValueTypeFloat32 then
      match cv.float32Value
      case Success(v) => Success(Widen(v))
      case Failure(e) => Failure(e)
    else cv.float64Value
  }

  /** Whether a command value holds NaN; a decoder failure is passed back as the error. */
  function CheckIsNaN(cv: CommandValue): (r: Verdict)
    ensures r.err.Some? ==> !r.isNaN
    ensures r.isNaN || r.err.Some? ==> IsFloatType(cv.valueType)
    ensures cv.valueType == ValueTypeFloat32 ==>
      (r.err.Some? <==> cv.float32Value.Failure?)
      && (cv.float32Value.Failure? ==> r.err == Some(Wrapped(cv.float32Value.error)))
      && (cv.float32Value.Success? ==> (r.isNaN <==> IsNaN(cv.float32Value.value)))
    ensures cv.valueType == ValueTypeFloat64 ==>
      (r.err.Some? <==> cv.float64Value.Failure?)
      && (cv.float64Value.Failure? ==> r.err == Some(Wrapped(cv.float64Value.error)))
      && (cv.float64Value.Success? ==> (r.isNaN <==> IsNaN(cv.float64Value.value)))
  {
    if cv.valueType == ValueTypeFloat32 then
      match cv.float32Value
      case Failure(e) => Verdict(false, Some(Wrapped(e)))
      case Success(v) => if IsNaN(Widen(v)) then Verdict(true, None) else Verdict(false, None)
    else if cv.valueType == ValueTypeFloat64 then
      match cv.float64Value
      case Failure(e) => Verdict(false, Some(Wrapped(e)))
      case Success(v) => if IsNaN(v) then Verdict(true, None) else Verdict(false, None)
    else Verdict(false, None)
  }

  /** Reference reading of the classifier: NaN exactly when a float-typed value decodes to NaN,
      an error exactly when its decoder fails, and a plain "not NaN" otherwise. */
  lemma CheckIsNaNMatchesReading(cv: CommandValue)
    ensures CheckIsNaN(cv) == Verdict(true, None) <==>
      IsFloatType(cv.valueType) && FloatReading(cv).Success? && IsNaN(FloatReading(cv).value)
    ensures CheckIsNaN(cv).err.Some? <==>
      IsFloatType(cv.valueType) && FloatReading(cv).Failure?
    ensures CheckIsNaN(cv) == Verdict(false, None) <==>
      !IsFloatType(cv.valueType) || (FloatReading(cv).Success? && !IsNaN(FloatReading(cv).value))
  {
  }

  /** Any other type tag is "not NaN" whatever the decoders would say: nothing is decoded. */
  lemma OtherTypesAreNotDecoded(cv: CommandValue, cv': CommandValue)
    requires !IsFloatType(cv.valueType) && cv'.valueType == cv.valueType
    ensures CheckIsNaN(cv) == CheckIsNaN(cv') == Verdict(false, None)
  {
  }

  /** A float-typed value consults only its own decoder. */
  lemma OnlyOwnDecoderIsConsulted(cv: CommandValue)
    ensures cv.valueType == ValueTypeFloat32 ==>
      CheckIsNaN(cv) == CheckIsNaN(cv.(float64Value := Failure(DecodeError(""))))
    ensures cv.valueType == ValueTypeFloat64 ==>
      CheckIsNaN(cv) == CheckIsNaN(cv.(float32Value := Failure(DecodeError(""))))
  {
  }

  /** Infinities of either sign and finite values are not NaN, for both float widths. */
  lemma NonNaNFloatsPass(f: Float, other: Result<Float, DecodeError>)
    requires !IsNaN(f)
    ensures CheckIsNaN(CommandValue(ValueTypeFloat32, Success(f), other)) == Verdict(false, None)
    ensures CheckIsNaN(CommandValue(ValueTypeFloat64, other, Success(f))) == Verdict(false, None)
  {
  }
}
