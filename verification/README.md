# KDL parse-error accumulator

A Dafny model of the error module of the `kdl` Rust crate (`src/error.rs`). The
KDL parser is built from nom combinators. When a combinator fails, nom builds an
error value through the `ParseError`, `ContextError` and `FromExternalError`
traits, and every enclosing combinator may annotate it on the way out. The crate
implements these traits for its internal accumulator `KdlParseError<I>`. The
accumulator has three fields: the input left at the failure, an optional static
context label, and an optional specific cause of type `KdlErrorKind`.

Files:

- `options.dfy` (module `Options`): Rust's `Option` and `Option::or`.
- `error.dfy` (module `Error`): the data types `KdlErrorKind`, `KdlError` and
  `KdlParseError<I>`. It also holds the four operations `from_error_kind`,
  `append`, `add_context` and `from_external_error`, the last in its integer and
  float overloads.
- `unwind.dfy` (module `Unwind`): a failure unwinding through a sequence of
  enclosing combinators. In this model each combinator either appends or adds
  context. The module holds the laws that govern the whole sequence.

The foreign types are opaque `type` declarations. These are std's
`ParseIntError` and `ParseFloatError` and nom's `ErrorKind`. The generic input
`I` is a type parameter. The two `from_external_error` overloads exist only for
`I = &str`, and there the input is a `string`. A `&'static str` label is a
`string`.

`KdlErrorKind::Context` (src/error.rs:42-46) is the kind meant for a label.
Nothing in src/error.rs builds it, though. `add_context` (src/error.rs:85-88)
writes the label into the separate `context` field of the accumulator. So the
model keeps label and cause apart, and a label and a conversion cause can
exist side by side. Attaching a label never touches the cause.

## Model

| member | source | states |
|---|---|---|
| Error.FromErrorKind | src/error.rs:71-77 | a fresh failure keeps the given input and has neither a context label nor a cause |
| Error.FromErrorKindIgnoresKind | src/error.rs:71-77 | the fresh failure is the same whichever nom `ErrorKind` reported it |
| Error.Append | src/error.rs:79-81 | appending an outer failure returns the inner failure unchanged |
| Error.AppendIgnoresOuter | src/error.rs:79-81 | the outer input and `ErrorKind` given to `append` have no influence on its result |
| Error.AddContext | src/error.rs:85-88 | the result always carries a label; an existing label is kept; the new label is used only when none was present; input and cause are unchanged |
| Error.AddContextFixedIffLabelled | src/error.rs:86 | `add_context` leaves a failure unchanged if and only if it already carries a label |
| Error.AddContextFirstWins | src/error.rs:86 | a second `add_context` has no effect, so on an unlabelled failure the first label applied is the one that stays |
| Error.FromExternalIntError | src/error.rs:92-98 | an integer conversion failure keeps the given input, has no label and has cause `ParseIntError(e)` |
| Error.FromExternalFloatError | src/error.rs:102-108 | a float conversion failure keeps the given input, has no label and has cause `ParseFloatError(e)` |
| Error.ExternalErrorsAreConversionFailures | src/error.rs:91-108 | both lifts give conversion-failure causes, so their results meet the requires of the unwinding laws about conversion failures; the integer lift never reports a float failure and the float lift never an integer one |
| Unwind.Run | src/error.rs:79-88 | any sequence of `append`/`add_context` steps leaves the failure's input and cause unchanged |
| Unwind.RunContext | src/error.rs:79-88 | after any sequence of steps, the label is the failure's own label if it had one, otherwise the innermost label applied, otherwise none |
| Unwind.RunConcat | src/error.rs:79-88 | unwinding through two runs of steps equals unwinding through the first run and then the second |
| Unwind.RunLabelledIsFixed | src/error.rs:86 | a failure that already carries a label comes out of any sequence of steps exactly as it went in |
| Unwind.RunDependsOnlyOnLabels | src/error.rs:79-88 | two step sequences with the same labels in the same order have the same effect, so `append` steps never matter |
| Unwind.FoldLabelsOntoFresh | src/error.rs:71-88 | folding a non-empty sequence of labels onto a fresh failure yields the first label of the sequence, with no cause and the original input |
| Unwind.UnlabelledStaysBlank | src/error.rs:71-81 | a fresh failure unwound only through `append` steps reaches the top with neither label nor cause |
| Unwind.IntCauseSurvives | src/error.rs:79-98 | an integer conversion cause and its input survive any sequence of steps and are never replaced or cleared |
| Unwind.FloatCauseSurvives | src/error.rs:79-108 | a float conversion cause and its input survive any sequence of steps and are never replaced or cleared |
| Unwind.ConversionCauseSticky | src/error.rs:79-108 | a conversion cause, integer or float, stays a conversion cause after any sequence of steps: it is never cleared and never becomes a context label |
| Unwind.ConversionFailureStillLabelled | src/error.rs:84-108 | an unlabelled conversion failure, integer or float, still takes the innermost label applied during unwinding and keeps its cause |
| Options.Or | src/error.rs:86 | `Option::or` keeps a present value and otherwise returns the alternative |

## Left out

- The `Diagnostic` and `Error` derives and their message strings and diagnostic codes (src/error.rs:13-53). They only control how an error is printed.
- `TryFromKdlNodeValueError` (src/error.rs:55-61). It only holds data and a display string and has no behaviour.
- The internals of std's `ParseIntError` and `ParseFloatError` and of nom's `ErrorKind`. These are foreign library types, so they are opaque here.
- `KdlError.offset`: a `usize` in the source and a `nat` here. Nothing in the modelled code computes or bounds it.
- The grammar parser, the numeric literal parsers, nom's combinators, and the conversion from `KdlParseError` to `KdlError` with its offset computation. None of them is part of this model. The step sequences in `Unwind` stand in for the way combinators call `append` and `add_context`.
- Unwind.Run: holds only along frames that call `append` or `add_context`. `KdlParseError` inherits nom's default `ParseError::from_char` and `ParseError::or`, because src/error.rs:70-82 overrides only `from_error_kind` and `append`. The default `or`, which `alt` uses, replaces one failure with another and can drop a conversion cause. nom's trait defaults are not part of this model.
- Unwind.IntCauseSurvives: holds only along `append`/`add_context` frames, for the same reason as `Unwind.Run`.
- Unwind.FloatCauseSurvives: holds only along `append`/`add_context` frames, for the same reason as `Unwind.Run`.
- Unwind.ConversionCauseSticky: holds only along `append`/`add_context` frames, for the same reason as `Unwind.Run`.
- The documentation-only `#[cfg(doc)]` imports (src/error.rs:7-11).
