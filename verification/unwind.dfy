/**
  The life of one failure while the combinator stack unwinds. In this model
  each enclosing combinator that sees the failure either appends its own
  position and kind (`append`) or labels the failure (`add_context`); a run of
  such frames is a sequence of steps, innermost first. Combinators that build a
  different error instead, through nom's inherited `ParseError` defaults such as
  `or`, are not frames of this model.
 */
module Unwind {
  import opened Options
  import opened Error

  /** One enclosing combinator reacting to a failure from below. */
  datatype Step<I> =
    | AppendStep(input: I, kind: ErrorKind)
    | ContextStep(input: I, ctx: string)

  /** The effect of one enclosing combinator on the failure it receives. */
  function Apply<I>(s: Step<I>, e: KdlParseError<I>): (r: KdlParseError<I>) {
    match s
    case AppendStep(i, k) => Append(i, k, e)
    case ContextStep(i, c) => AddContext(i, c, e)
  }

  /**
    Unwinds `e` through `steps`, innermost first. Neither the input at which
    the failure happened nor its cause is ever changed on the way out.
   */
  function Run<I>(e: KdlParseError<I>, steps: seq<Step<I>>): (r: KdlParseError<I>)
    ensures r.input == e.input
    ensures r.kind == e.kind
    decreases |steps|
  {
    if |steps| == 0 then e else Run(Apply(steps[0], e), steps[1..])
  }

  /** The context labels among `steps`, innermost first. */
  function Labels<I>(steps: seq<Step<I>>): (r: seq<string>)
    ensures |r| <= |steps|
    ensures |r| == 0 <==> forall j :: 0 <= j < |steps| ==> steps[j].AppendStep?
    decreases |steps|
  {
    if |steps| == 0 then []
    else (if steps[0].ContextStep? then [steps[0].ctx] else []) + Labels(steps[1..])
  }

  /** A reference for the label a failure ends up with: its own, else the innermost one applied. */
  function FirstLabel<I>(start: Option<string>, steps: seq<Step<I>>): (r: Option<string>) {
    if start.Some? then start
    else if |Labels(steps)| > 0 then Some(Labels(steps)[0])
    else None
  }

  /** The context frames that apply `labels`, innermost first, all at the same input. */
  function ContextSteps<I>(input: I, labels: seq<string>): (r: seq<Step<I>>)
    decreases |labels|
  {
    if |labels| == 0 then [] else [ContextStep(input, labels[0])] + ContextSteps(input, labels[1..])
  }

  /** The label after unwinding is the failure's own label, else the innermost label applied. */
  lemma {:induction false} RunContext<I>(e: KdlParseError<I>, steps: seq<Step<I>>)
    ensures Run(e, steps).context == FirstLabel(e.context, steps)
    decreases |steps|
  {
    if |steps| > 0 {
      RunContext(Apply(steps[0], e), steps[1..]);
    }
  }

  /** Unwinding through two runs of frames is unwinding through both, in order. */
  lemma {:induction false} RunConcat<I>(e: KdlParseError<I>, s1: seq<Step<I>>, s2: seq<Step<I>>)
    ensures Run(e, s1 + s2) == Run(Run(e, s1), s2)
    decreases |s1|
  {
    if |s1| == 0 {
      assert s1 + s2 == s2;
    } else {
      assert (s1 + s2)[0] == s1[0];
      assert (s1 + s2)[1..] == s1[1..] + s2;
      RunConcat(Apply(s1[0], e), s1[1..], s2);
    }
  }

  /** A failure that already carries a label comes out of any unwinding exactly as it went in. */
  lemma {:induction false} RunLabelledIsFixed<I>(e: KdlParseError<I>, steps: seq<Step<I>>)
    requires e.context.Some?
    ensures Run(e, steps) == e
    decreases |steps|
  {
    if |steps| > 0 {
      RunLabelledIsFixed(Apply(steps[0], e), steps[1..]);
    }
  }

  /** Only the labels of the frames matter: the `append` frames can be dropped or reordered freely. */
  lemma RunDependsOnlyOnLabels<I>(e: KdlParseError<I>, s1: seq<Step<I>>, s2: seq<Step<I>>)
    requires Labels(s1) == Labels(s2)
    ensures Run(e, s1) == Run(e, s2)
  {
    RunContext(e, s1);
    RunContext(e, s2);
  }

  /** The labels of a run of context frames are those labels, in order. */
  lemma {:induction false} LabelsOfContextSteps<I>(input: I, labels: seq<string>)
    ensures Labels(ContextSteps(input, labels)) == labels
    decreases |labels|
  {
    if |labels| > 0 {
      var steps := ContextSteps(input, labels);
      assert steps[0] == ContextStep(input, labels[0]);
      assert steps[1..] == ContextSteps(input, labels[1..]);
      LabelsOfContextSteps(input, labels[1..]);
    }
  }

  /**
    Folding a non-empty sequence of labels, innermost first, onto a fresh
    failure yields the innermost label, with no cause and the failure's own input.
   */
  lemma FoldLabelsOntoFresh<I>(input: I, k: ErrorKind, at: I, labels: seq<string>)
    requires |labels| > 0
    ensures Run(FromErrorKind(input, k), ContextSteps(at, labels)).context == Some(labels[0])
    ensures Run(FromErrorKind(input, k), ContextSteps(at, labels)).kind.None?
    ensures Run(FromErrorKind(input, k), ContextSteps(at, labels)).input == input
  {
    RunContext(FromErrorKind(input, k), ContextSteps(at, labels));
    LabelsOfContextSteps(at, labels);
  }

  /** A fresh failure that no frame labels reaches the top with neither label nor cause. */
  lemma UnlabelledStaysBlank<I>(input: I, k: ErrorKind, steps: seq<Step<I>>)
    requires forall j :: 0 <= j < |steps| ==> steps[j].AppendStep?
    ensures IsBlank(Run(FromErrorKind(input, k), steps))
  {
    RunContext(FromErrorKind(input, k), steps);
  }

  /** An integer conversion failure survives any unwinding, labelled or not. */
  lemma IntCauseSurvives(input: string, k: ErrorKind, x: ParseIntError, steps: seq<Step<string>>)
    ensures Run(FromExternalIntError(input, k, x), steps).kind == Some(KdlErrorKind.ParseIntError(x))
    ensures Run(FromExternalIntError(input, k, x), steps).input == input
  {
  }

  /** A float conversion failure survives any unwinding, labelled or not. */
  lemma FloatCauseSurvives(input: string, k: ErrorKind, x: ParseFloatError, steps: seq<Step<string>>)
    ensures Run(FromExternalFloatError(input, k, x), steps).kind == Some(KdlErrorKind.ParseFloatError(x))
    ensures Run(FromExternalFloatError(input, k, x), steps).input == input
  {
  }

  /**
    A conversion cause stays a conversion cause: no frame clears it or demotes
    it to a context label. The last clause follows from the one before it and is
    spelled out only for the reader.
   */
  lemma ConversionCauseSticky<I>(e: KdlParseError<I>, steps: seq<Step<I>>)
    requires e.kind.Some? && IsConversionFailure(e.kind.value)
    ensures Run(e, steps).kind.Some?
    ensures IsConversionFailure(Run(e, steps).kind.value)
    ensures !Run(e, steps).kind.value.Context?
  {
  }

  /**
    An unlabelled conversion failure, integer or float, still takes the
    innermost label applied during unwinding, and keeps its cause beside it.
   */
  lemma ConversionFailureStillLabelled<I>(e: KdlParseError<I>, steps: seq<Step<I>>)
    requires e.kind.Some? && IsConversionFailure(e.kind.value)
    requires e.context.None?
    requires |Labels(steps)| > 0
    ensures Run(e, steps).context == Some(Labels(steps)[0])
    ensures Run(e, steps).kind == e.kind
  {
    RunContext(e, steps);
  }
}
