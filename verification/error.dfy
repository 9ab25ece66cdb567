/**
  The error types of the KDL parser (src/error.rs) and the four operations
  through which the nom combinator stack builds and annotates a failure while
  it unwinds: `from_error_kind`, `append`, `add_context` and the two
  `from_external_error` lifts.
 */
module Error {
  import opened Options

  /** std's `ParseIntError`: a foreign value whose contents this model never inspects. */
  type ParseIntError(==)

  /** std's `ParseFloatError`: a foreign value whose contents this model never inspects. */
  type ParseFloatError(==)

  /** nom's `ErrorKind`: which combinator failed. Every operation here ignores it. */
  type ErrorKind

  /** What went wrong, as reported to the user of the parser. */
  datatype KdlErrorKind =
    | ParseIntError(intError: ParseIntError)
    | ParseFloatError(floatError: ParseFloatError)
    | Context(ctx: string)
    | Other

  /** A cause that came from converting a numeric literal, the most specific kind of cause. */
  predicate IsConversionFailure(k: KdlErrorKind) {
    k.ParseIntError? || k.ParseFloatError?
  }

  /** The public error: the whole source text, the offset (in chars) of the failure, and its kind. */
  datatype KdlError = KdlError(input: string, offset: nat, kind: KdlErrorKind)

  /**
    The accumulator threaded through the parser while it fails: the input that
    was left when the failure happened, at most one context label, and at most
    one specific cause.
   */
  datatype KdlParseError<I> = KdlParseError(input: I, context: Option<string>, kind: Option<KdlErrorKind>)

  /** An accumulator that carries neither a label nor a cause. */
  predicate IsBlank<I>(e: KdlParseError<I>) {
    e.context.None? && e.kind.None?
  }

  /** `ParseError::from_error_kind`: a fresh failure at `input`; nom's kind is dropped. */
  function FromErrorKind<I>(input: I, kind: ErrorKind): (r: KdlParseError<I>)
    ensures r.input == input
    ensures IsBlank(r)
  {
    KdlParseError(input, None, None)
  }

  /** `ParseError::append`: an outer combinator failing on top of `other` leaves `other` as it was. */
  function Append<I>(input: I, kind: ErrorKind, other: KdlParseError<I>): (r: KdlParseError<I>)
    ensures r == other
  {
    other
  }

  /**
    `ContextError::add_context`: labels the failure with `ctx` unless it already
    carries a label; the input and the cause are left alone.
   */
  function AddContext<I>(input: I, ctx: string, other: KdlParseError<I>): (r: KdlParseError<I>)
    ensures r.input == other.input
    ensures r.kind == other.kind
    ensures r.context.Some?
    ensures other.context.Some? ==> r.context == other.context
    ensures other.context.None? ==> r.context == Some(ctx)
  {
    other.(context := Or(other.context, Some(ctx)))
  }

  /** `FromExternalError<&str, ParseIntError>`: a failed integer conversion at `input`. */
  function FromExternalIntError(input: string, kind: ErrorKind, e: ParseIntError): (r: KdlParseError<string>)
    ensures r.input == input
    ensures r.context.None?
    ensures r.kind == Some(KdlErrorKind.ParseIntError(e))
  {
    KdlParseError(input, None, Some(KdlErrorKind.ParseIntError(e)))
  }

  /** `FromExternalError<&str, ParseFloatError>`: a failed float conversion at `input`. */
  function FromExternalFloatError(input: string, kind: ErrorKind, e: ParseFloatError): (r: KdlParseError<string>)
    ensures r.input == input
    ensures r.context.None?
    ensures r.kind == Some(KdlErrorKind.ParseFloatError(e))
  {
    KdlParseError(input, None, Some(KdlErrorKind.ParseFloatError(e)))
  }

  /** A fresh failure does not depend on which nom combinator reported it. */
  lemma FromErrorKindIgnoresKind<I>(input: I, k1: ErrorKind, k2: ErrorKind)
    ensures FromErrorKind(input, k1) == FromErrorKind(input, k2)
  {
  }

  /** `append` ignores the outer position and combinator entirely. */
  lemma AppendIgnoresOuter<I>(i1: I, k1: ErrorKind, i2: I, k2: ErrorKind, other: KdlParseError<I>)
    ensures Append(i1, k1, other) == Append(i2, k2, other)
  {
  }

  /** Labelling changes an accumulator exactly when it has no label yet. */
  lemma AddContextFixedIffLabelled<I>(input: I, ctx: string, e: KdlParseError<I>)
    ensures AddContext(input, ctx, e) == e <==> e.context.Some?
  {
  }

  /** Once labelled, any further label is ignored: the first label wins. */
  lemma AddContextFirstWins<I>(i1: I, c1: string, i2: I, c2: string, e: KdlParseError<I>)
    ensures AddContext(i2, c2, AddContext(i1, c1, e)) == AddContext(i1, c1, e)
    ensures e.context.None? ==> AddContext(i2, c2, AddContext(i1, c1, e)).context == Some(c1)
  {
  }

  /**
    Each conversion lift yields a conversion-failure cause, so its result meets
    the requires of `ConversionCauseSticky` and `ConversionFailureStillLabelled`;
    and neither lift reports its failure under the other numeric kind.
   */
  lemma ExternalErrorsAreConversionFailures(input: string, k: ErrorKind, ie: ParseIntError, fe: ParseFloatError)
    ensures IsConversionFailure(FromExternalIntError(input, k, ie).kind.value)
    ensures IsConversionFailure(FromExternalFloatError(input, k, fe).kind.value)
    ensures !FromExternalIntError(input, k, ie).kind.value.ParseFloatError?
    ensures !FromExternalFloatError(input, k, fe).kind.value.ParseIntError?
  {
  }
}
