/** The SDK's error values and how they are classified (s2/error.go, s2/reconnect.go).

    A Go error chain is a value of `Err`: what `errors.As` would find in it is computed
    by `AsS2` and `IsIndefinite`. Message texts carry no behaviour and are left out.
 */
module Options {
  datatype Option<+T> = None | Some(value: T)
}

module Errors {
  import opened Options

  /** One constructor per key of the `errorCodes` table; every other code string is `Unlisted`. */
  datatype ErrorCode =
    | AccessTokenNotFound | Authn | BadFrame | BadHeader | BadJson | BadPath | BadProto | BadQuery
    | BasinDeletionPending | BasinNotFound | ClientHangup | DecryptionFailed | HotServer | Invalid
    | NotImplemented | OtherCode | PermissionDenied | QuotaExhausted | RateLimited | RequestTimeout
    | ResourceAlreadyExists | ServerDraining | Storage | StreamDeletionPending | StreamNotFound
    | TransactionConflict | Unavailable | UpstreamTimeout | AppendConditionFailed
    | Unlisted(name: string)

  datatype Origin = FromServer | FromSdk | FromNetwork | NoOrigin

  datatype CodeInfo = CodeInfo(status: int, retryable: bool, noSideEffects: bool)

  datatype S2Error = S2Error(code: ErrorCode, status: int, origin: Origin)

  datatype Err =
    | Api(s2: S2Error)
    | Plain(text: string)
    | Network(text: string)
    | SessionClosed
    | Cancelled
    | Exhausted(last: Err)
    | Indefinite(final: Err)

  function Lookup(c: ErrorCode): Option<CodeInfo> {
    match c
    case AccessTokenNotFound => Some(CodeInfo(404, false, true))
    case Authn => Some(CodeInfo(401, false, true))
    case BadFrame => Some(CodeInfo(400, false, true))
    case BadHeader => Some(CodeInfo(400, false, true))
    case BadJson => Some(CodeInfo(400, false, true))
    case BadPath => Some(CodeInfo(400, false, true))
    case BadProto => Some(CodeInfo(400, false, true))
    case BadQuery => Some(CodeInfo(400, false, true))
    case BasinDeletionPending => Some(CodeInfo(409, false, true))
    case BasinNotFound => Some(CodeInfo(404, false, true))
    case ClientHangup => Some(CodeInfo(499, false, false))
    case DecryptionFailed => Some(CodeInfo(400, false, true))
    case HotServer => Some(CodeInfo(502, true, true))
    case Invalid => Some(CodeInfo(422, false, true))
    case NotImplemented => Some(CodeInfo(501, false, true))
    case OtherCode => Some(CodeInfo(500, true, false))
    case PermissionDenied => Some(CodeInfo(403, false, true))
    case QuotaExhausted => Some(CodeInfo(403, false, true))
    case RateLimited => Some(CodeInfo(429, true, true))
    case RequestTimeout => Some(CodeInfo(408, true, false))
    case ResourceAlreadyExists => Some(CodeInfo(409, false, true))
    case ServerDraining => Some(CodeInfo(503, true, true))
    case Storage => Some(CodeInfo(500, true, false))
    case StreamDeletionPending => Some(CodeInfo(409, false, true))
    case StreamNotFound => Some(CodeInfo(404, false, true))
    case TransactionConflict => Some(CodeInfo(409, true, true))
    case Unavailable => Some(CodeInfo(503, true, false))
    case UpstreamTimeout => Some(CodeInfo(504, true, false))
    case AppendConditionFailed => Some(CodeInfo(412, false, true))
    case Unlisted(_) => None
  }

  predicate IsRetryableStatus(status: int) {
    status == 408 || status == 429 || status == 500 || status == 502 || status == 503 || status == 504
  }

  predicate IsRetryable(e: S2Error) {
    if e.status == 0 then false
    else if e.origin == FromServer && Lookup(e.code).Some? then
      Lookup(e.code).value.status == e.status && Lookup(e.code).value.retryable
    else IsRetryableStatus(e.status)
  }

  predicate S2HasNoSideEffects(e: S2Error) {
    && e.origin == FromServer
    && Lookup(e.code).Some?
    && Lookup(e.code).value.status == e.status
    && Lookup(e.code).value.noSideEffects
  }

  /** The `*S2Error` that `errors.As` reaches, if any. */
  function AsS2(e: Err): Option<S2Error> {
    match e
    case Api(s) => Some(s)
    case Exhausted(last) => AsS2(last)
    case Indefinite(final) => AsS2(final)
    case _ => None
  }

  /** Whether an `AppendIndefiniteFailureError` occurs in the chain. */
  predicate IsIndefinite(e: Err) {
    match e
    case Exhausted(last) => IsIndefinite(last)
    case Indefinite(_) => true
    case _ => false
  }

  predicate HasNoSideEffects(e: Err) {
    !IsIndefinite(e) && AsS2(e).Some? && S2HasNoSideEffects(AsS2(e).value)
  }

  /** `isNoSideEffectsError`: looks at the reached S2 error only. */
  predicate IsNoSideEffectsError(e: Err) {
    AsS2(e).Some? && S2HasNoSideEffects(AsS2(e).value)
  }

  predicate IsRetryableErr(e: Err) {
    AsS2(e).Some? && IsRetryable(AsS2(e).value)
  }

  function WithPriorUncertainty(e: Err, prior: bool): Err {
    if !prior || !HasNoSideEffects(e) then e else Indefinite(e)
  }

  predicate IsServerDraining(e: Err) {
    AsS2(e).Some? && AsS2(e).value.status == 503 && AsS2(e).value.code == ServerDraining
  }

  /** Errors a transport can report: drain notices are decoded from server responses, and
      indefinite errors are only made when an append is given up. */
  predicate TransportErr(e: Err) {
    && !IsIndefinite(e)
    && (IsServerDraining(e) ==> AsS2(e).value.origin == FromServer)
  }

  /** The wrapped error reports "no side effects" exactly when the last attempt was clean and
      no earlier attempt was in doubt. */
  lemma PriorUncertaintyDecides(e: Err, prior: bool)
    ensures HasNoSideEffects(WithPriorUncertainty(e, prior)) <==> HasNoSideEffects(e) && !prior
    ensures AsS2(WithPriorUncertainty(e, prior)) == AsS2(e)
  {
    if prior && HasNoSideEffects(e) {
      assert IsIndefinite(Indefinite(e));
    }
  }

  /** The server's codes that may be retried, those that may have taken effect, and what else is retryable. */
  lemma RetryableCodes(e: S2Error)
    ensures Lookup(e.code).Some? ==>
              && (Lookup(e.code).value.retryable <==>
                    e.code in {HotServer, OtherCode, RateLimited, RequestTimeout, ServerDraining, Storage, TransactionConflict, Unavailable, UpstreamTimeout})
              && (!Lookup(e.code).value.noSideEffects <==>
                    e.code in {ClientHangup, OtherCode, RequestTimeout, Storage, Unavailable, UpstreamTimeout})
    ensures e.origin != FromServer || e.code.Unlisted? ==> (IsRetryable(e) <==> e.status in {408, 429, 500, 502, 503, 504})
    ensures IsRetryable(e) && e.origin == FromServer && !e.code.Unlisted? ==> e.status in {408, 409, 429, 500, 502, 503, 504}
  {
    match e.code
    case Unlisted(_) => assert Lookup(e.code).None?;
    case _ => assert Lookup(e.code).Some?;
  }

  /** The only errors that may be retried under the noSideEffects policy. */
  lemma RetryableWithoutSideEffects(e: S2Error)
    ensures IsRetryable(e) && S2HasNoSideEffects(e) <==>
            e.origin == FromServer &&
            (|| (e.code == HotServer && e.status == 502)
             || (e.code == RateLimited && e.status == 429)
             || (e.code == ServerDraining && e.status == 503)
             || (e.code == TransactionConflict && e.status == 409))
  {
    match e.code
    case Unlisted(_) => assert Lookup(e.code).None?;
    case _ => assert Lookup(e.code).Some?;
  }

  /** A drain notice from a transport never leaves an append in doubt and is retryable. */
  lemma DrainIsClean(e: Err)
    requires TransportErr(e) && IsServerDraining(e)
    ensures HasNoSideEffects(e) && IsNoSideEffectsError(e) && IsRetryableErr(e)
  {
    assert Lookup(ServerDraining) == Some(CodeInfo(503, true, true));
  }
}
