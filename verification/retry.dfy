/**
 * The gRPC client retry interceptor of pkg/interceptors/retry.go, modelled as written.
 *
 * The call context becomes a value: the incoming metadata the interceptor reads, and the
 * first cancellation check at which the Done channel is found closed (checks are numbered
 * from 0, one before each attempt; once closed a context stays closed). The unary invoker
 * becomes a script: `invoker(k)` is the error returned by attempt `k` (numbered from 0),
 * `None` standing for a nil error. Each interceptor also returns how many times it called
 * the invoker, an observation the Go code does not make.
 */
module Interceptors {
  import opened Wrappers

  /** gRPC metadata: every key maps to a list of values. */
  type Metadata = map<string, seq<string>>

  /** The two errors `ctx.Err()` can return once the context is done. */
  datatype ContextError = Canceled | DeadlineExceeded

  /** An error an invoker may return. */
  datatype Error =
    | StatusError(code: int)          // an error carrying a gRPC status
    | ContextErr(cause: ContextError) // the context's own error
    | PlainError(text: string)        // any other Go error value

  datatype CallContext = CallContext(incoming: Option<Metadata>, doneAt: Option<nat>, cause: ContextError)
  {
    /** The Done channel is closed at check `k`. */
    predicate DoneAt(k: nat) {
      doneAt.Some? && doneAt.value <= k
    }

    /** What `ctx.Err()` returns once the context is done. */
    function Err(): Error {
      ContextErr(cause)
    }
  }

  /** The context is still live at every check made before attempt `n`. */
  predicate LiveBefore(ctx: CallContext, n: nat) {
    ctx.doneAt.None? || n <= ctx.doneAt.value
  }

  /** The only retry option the package offers. */
  datatype RetryOption = RetryCodes(codes: seq<int>)

  datatype GrpcRetry = GrpcRetry(retryCodes: seq<int>, retryErrors: seq<Error>, maxRetries: int)

  /** A GrpcRetry with every field at its Go zero value. */
  const ZeroRetry := GrpcRetry([], [], 0)

  /** Running an option on a GrpcRetry: the code list is replaced, not extended. */
  function ApplyRetryOption(option: RetryOption, g: GrpcRetry): (r: GrpcRetry)
    ensures r.retryCodes == option.codes
    ensures r.retryErrors == g.retryErrors && r.maxRetries == g.maxRetries
  {
    match option
    case RetryCodes(codes) => g.(retryCodes := codes)
  }

  /** Builds an interceptor configuration by running the options in order. */
  method NewGrpcRetry(options: seq<RetryOption>) returns (g: GrpcRetry)
    ensures |options| == 0 ==> g.retryCodes == []
    ensures |options| > 0 ==> g.retryCodes == options[|options| - 1].codes
    ensures g.retryErrors == [] && g.maxRetries == 0
    ensures g == BuildRetry(options)
  {
    g := ZeroRetry;
    for i := 0 to |options|
      invariant g == BuildRetry(options[..i])
      invariant g.retryErrors == [] && g.maxRetries == 0
      invariant i == 0 ==> g.retryCodes == []
      invariant i > 0 ==> g.retryCodes == options[i - 1].codes
    {
      assert options[..i + 1][..i] == options[..i];
      g := ApplyRetryOption(options[i], g);
    }
    assert options[..|options|] == options;
  }

  /** The status code `status.FromError` extracts, when the error carries one. */
  function StatusCode(e: Error): (r: Option<int>)
    ensures r.Some? <==> e.StatusError?
    ensures r.Some? ==> r.value == e.code
  {
    match e
    case StatusError(code) => Some(code)
    case _ => None
  }

  /** `errors.Is` on errors that wrap nothing: identity of the error value. */
  predicate ErrorsIs(e: Error, target: Error) {
    e == target
  }

  /** Whether the incoming metadata marks the call idempotent. */
  function IsIdempotent(md: Option<Metadata>): (b: bool)
    ensures b <==> md.Some? && "is_idempotent" in md.value
                   && |md.value["is_idempotent"]| > 0 && md.value["is_idempotent"][0] == "1"
  {
    var isIdempotent := false;
    if md.None? then isIdempotent
    else if "is_idempotent" !in md.value then isIdempotent
    else
      var val := md.value["is_idempotent"];
      if |val| > 0 && val[0] == "1" then true else isIdempotent
  }

  /** How many iterations `for i := 0; i < maxRetries; i++` makes. */
  function Attempts(g: GrpcRetry): nat {
    if g.maxRetries < 0 then 0 else g.maxRetries
  }

  /** The error held by `err` after `n` invocations: that of the last one, nil before any. */
  function LastOutcome(invoker: nat -> Option<Error>, n: nat): Option<Error> {
    if n == 0 then None else invoker(n - 1)
  }

  /** An error and the number of invocations it took. */
  datatype CallResult = CallResult(err: Option<Error>, calls: nat)

  /**
   * Functional model of the idempotent loop, from iteration `i` on, with `err` and
   * `calls` as the loop left them. The classification of a failed attempt has no
   * effect on control flow, so it does not appear here.
   */
  function RetryLoop(g: GrpcRetry, ctx: CallContext, invoker: nat -> Option<Error>,
                     i: nat, err: Option<Error>, calls: nat): CallResult
    decreases Attempts(g) - i
  {
    if i >= Attempts(g) then CallResult(err, calls)
    else if ctx.DoneAt(i) then CallResult(Some(ctx.Err()), calls)
    else RetryLoop(g, ctx, invoker, i + 1, invoker(i), calls + 1)
  }

  /** Functional model of the whole unary interceptor. */
  function Unary(g: GrpcRetry, ctx: CallContext, invoker: nat -> Option<Error>): CallResult {
    if !IsIdempotent(ctx.incoming) then
      if ctx.DoneAt(0) then CallResult(Some(ctx.Err()), 0) else CallResult(invoker(0), 1)
    else
      RetryLoop(g, ctx, invoker, 0, None, 0)
  }

  /**
   * From any state the loop can be in, it ends either at the first closed check with the
   * context error, or after all iterations with the last invocation's error.
   */
  lemma {:induction false} RetryLoopResult(g: GrpcRetry, ctx: CallContext, invoker: nat -> Option<Error>,
                                           i: nat, err: Option<Error>, calls: nat)
    requires i <= Attempts(g) && calls == i
    requires LiveBefore(ctx, i) && err == LastOutcome(invoker, i)
    ensures LiveBefore(ctx, Attempts(g)) ==>
              RetryLoop(g, ctx, invoker, i, err, calls)
                == CallResult(LastOutcome(invoker, Attempts(g)), Attempts(g))
    ensures !LiveBefore(ctx, Attempts(g)) ==>
              RetryLoop(g, ctx, invoker, i, err, calls)
                == CallResult(Some(ctx.Err()), ctx.doneAt.value)
    decreases Attempts(g) - i
  {
    if i < Attempts(g) && !ctx.DoneAt(i) {
      RetryLoopResult(g, ctx, invoker, i + 1, invoker(i), calls + 1);
    }
  }

  /** The outcomes of the unary interceptor, case by case. */
  lemma UnaryResult(g: GrpcRetry, ctx: CallContext, invoker: nat -> Option<Error>)
    ensures !IsIdempotent(ctx.incoming) && ctx.DoneAt(0) ==>
              Unary(g, ctx, invoker) == CallResult(Some(ctx.Err()), 0)
    ensures !IsIdempotent(ctx.incoming) && !ctx.DoneAt(0) ==>
              Unary(g, ctx, invoker) == CallResult(invoker(0), 1)
    ensures IsIdempotent(ctx.incoming) && LiveBefore(ctx, Attempts(g)) ==>
              Unary(g, ctx, invoker) == CallResult(LastOutcome(invoker, Attempts(g)), Attempts(g))
    ensures IsIdempotent(ctx.incoming) && !LiveBefore(ctx, Attempts(g)) ==>
              Unary(g, ctx, invoker) == CallResult(Some(ctx.Err()), ctx.doneAt.value)
    ensures Unary(g, ctx, invoker).calls <= if IsIdempotent(ctx.incoming) then Attempts(g) else 1
  {
    RetryLoopResult(g, ctx, invoker, 0, None, 0);
  }

  /**
   * The unary interceptor. A call that is not marked idempotent gets one invocation unless
   * the context is already done. An idempotent call runs the bounded loop; a failed attempt
   * is classified, but every branch of the classification reaches the next iteration: the
   * first `continue` belongs to the outer loop, the second to the inner `range` loop.
   */
  method UnaryClientInterceptor(g: GrpcRetry, ctx: CallContext, invoker: nat -> Option<Error>)
    returns (err: Option<Error>, calls: nat)
    ensures !IsIdempotent(ctx.incoming) && ctx.DoneAt(0) ==> err == Some(ctx.Err()) && calls == 0
    ensures !IsIdempotent(ctx.incoming) && !ctx.DoneAt(0) ==> err == invoker(0) && calls == 1
    ensures IsIdempotent(ctx.incoming) ==> calls <= Attempts(g)
    ensures IsIdempotent(ctx.incoming) && LiveBefore(ctx, Attempts(g)) ==>
              calls == Attempts(g) && err == LastOutcome(invoker, calls)
    ensures IsIdempotent(ctx.incoming) && !LiveBefore(ctx, Attempts(g)) ==>
              calls == ctx.doneAt.value && err == Some(ctx.Err())
    ensures CallResult(err, calls) == Unary(g, ctx, invoker)
  {
    UnaryResult(g, ctx, invoker);
    calls := 0;
    if !IsIdempotent(ctx.incoming) {
      if ctx.DoneAt(0) {
        return Some(ctx.Err()), calls;
      }
      calls := calls + 1;
      return invoker(0), calls;
    }

    err := None;
    var i := 0;
    while i < g.maxRetries
      invariant 0 <= i <= Attempts(g)
      invariant calls == i && LiveBefore(ctx, i)
      invariant err == LastOutcome(invoker, i)
    {
      if ctx.DoneAt(i) {
        return Some(ctx.Err()), calls;
      }
      err := invoker(i);
      calls := calls + 1;
      if err.Some? {
        var code := StatusCode(err.value);
        if code.Some? && code.value in g.retryCodes {
          // continues the outer loop; its post statement still runs
          i := i + 1;
          continue;
        }
        var j := 0;
        while j < |g.retryErrors|
          invariant 0 <= j <= |g.retryErrors|
        {
          if ErrorsIs(err.value, g.retryErrors[j]) {
            // continues the inner loop only
            j := j + 1;
            continue;
          }
          j := j + 1;
        }
      }
      i := i + 1;
    }
  }

  /** What a streamer returns: a client stream (identified by a number) and an error. */
  datatype StreamResult = StreamResult(stream: Option<nat>, err: Option<Error>)

  /** The stream interceptor: one call of the streamer, idempotent or not, result unchanged. */
  method StreamClientInterceptor(ctx: CallContext, streamer: CallContext -> StreamResult)
    returns (r: StreamResult, calls: nat)
    ensures r == streamer(ctx) && calls == 1
  {
    calls := 0;
    if !IsIdempotent(ctx.incoming) {
      calls := calls + 1;
      return streamer(ctx), calls;
    }
    calls := calls + 1;
    r := streamer(ctx);
  }

  // Discrepancies of the loop as written, shown on concrete calls

  /** A context whose incoming metadata marks the call idempotent and that is never done. */
  const IdempotentCall := CallContext(Some(map["is_idempotent" := ["1"]]), None, Canceled)

  /** With three iterations, a call that succeeds at once is still invoked three times. */
  lemma AsWrittenRepeatsSuccessfulCall()
    ensures Unary(GrpcRetry([], [], 3), IdempotentCall, k => None) == CallResult(None, 3)
  {
    UnaryResult(GrpcRetry([], [], 3), IdempotentCall, k => None);
  }

  /** An error whose code (3) is not among the retry codes does not end the loop either. */
  lemma AsWrittenRetriesNonRetryableError()
    ensures Unary(GrpcRetry([14], [], 3), IdempotentCall, k => Some(StatusError(3)))
              == CallResult(Some(StatusError(3)), 3)
  {
    UnaryResult(GrpcRetry([14], [], 3), IdempotentCall, k => Some(StatusError(3)));
  }

  /**
   * No option sets `maxRetries`, so every configuration NewGrpcRetry builds has zero
   * iterations: an idempotent call is never invoked and nil is returned in its place.
   */
  lemma AsWrittenSkipsIdempotentCall(options: seq<RetryOption>, ctx: CallContext, invoker: nat -> Option<Error>)
    requires IsIdempotent(ctx.incoming)
    ensures Unary(BuildRetry(options), ctx, invoker) == CallResult(None, 0)
  {
    BuildRetryZero(options);
  }

  /** The configuration NewGrpcRetry builds, as a function: the options run left to right. */
  function BuildRetry(options: seq<RetryOption>): GrpcRetry
    decreases |options|
  {
    if |options| == 0 then ZeroRetry
    else ApplyRetryOption(options[|options| - 1], BuildRetry(options[..|options| - 1]))
  }

  lemma {:induction false} BuildRetryZero(options: seq<RetryOption>)
    ensures BuildRetry(options).maxRetries == 0 && BuildRetry(options).retryErrors == []
    decreases |options|
  {
    if |options| > 0 {
      BuildRetryZero(options[..|options| - 1]);
    }
  }

  // The interceptor as documented: stop on success or on an error that is not retryable

  /** A failed attempt whose status code or error value the configuration lists for retry. */
  predicate Retryable(g: GrpcRetry, e: Option<Error>) {
    e.Some? && ((e.value.StatusError? && e.value.code in g.retryCodes) || e.value in g.retryErrors)
  }

  /** The attempt budget of the corrected loop: at least one attempt. */
  function MaxAttempts(g: GrpcRetry): nat {
    if g.maxRetries < 1 then 1 else g.maxRetries
  }

  /**
   * The corrected unary interceptor. It makes at least one attempt while the context is
   * live, retries only errors the configuration lists, returns as soon as an attempt
   * succeeds or fails for good, and never reports success without a successful attempt.
   */
  method CorrectedUnaryClientInterceptor(g: GrpcRetry, ctx: CallContext, invoker: nat -> Option<Error>)
    returns (err: Option<Error>, calls: nat)
    ensures !IsIdempotent(ctx.incoming) && ctx.DoneAt(0) ==> err == Some(ctx.Err()) && calls == 0
    ensures !IsIdempotent(ctx.incoming) && !ctx.DoneAt(0) ==> err == invoker(0) && calls == 1
    ensures IsIdempotent(ctx.incoming) ==> calls <= MaxAttempts(g) && LiveBefore(ctx, calls)
    ensures IsIdempotent(ctx.incoming) ==> forall k :: 0 <= k < calls - 1 ==> Retryable(g, invoker(k))
    ensures IsIdempotent(ctx.incoming) ==>
              || (&& calls < MaxAttempts(g) && (calls == 0 || Retryable(g, invoker(calls - 1)))
                  && ctx.DoneAt(calls) && err == Some(ctx.Err()))
              || (calls >= 1 && err == invoker(calls - 1) && (calls == MaxAttempts(g) || !Retryable(g, err)))
    ensures !ctx.DoneAt(0) ==> calls >= 1
    ensures err.None? ==> calls >= 1 && invoker(calls - 1).None?
  {
    calls := 0;
    if !IsIdempotent(ctx.incoming) {
      if ctx.DoneAt(0) {
        return Some(ctx.Err()), calls;
      }
      calls := calls + 1;
      return invoker(0), calls;
    }

    err := None;
    var i := 0;
    while i < MaxAttempts(g)
      invariant 0 <= i <= MaxAttempts(g)
      invariant calls == i && LiveBefore(ctx, i)
      invariant err == LastOutcome(invoker, i)
      invariant forall k :: 0 <= k < i ==> Retryable(g, invoker(k))
    {
      if ctx.DoneAt(i) {
        return Some(ctx.Err()), calls;
      }
      err := invoker(i);
      calls := calls + 1;
      if !Retryable(g, err) {
        return err, calls;
      }
      i := i + 1;
    }
  }
}
