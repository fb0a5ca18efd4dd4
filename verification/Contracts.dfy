/** Values that cross the boundary between the cohort host, its backends and
    its durable store: codes, stop proofs, outcomes and failures. */
module Contracts {

  datatype Option<+T> = None | Some(value: T)

  newtype Byte = x: int | 0 <= x < 256

  /** Session identifiers; their spelling plays no part below. */
  type SessionId = nat

  const MAXIMUM_CONTRIBUTIONS := 64
  const MAXIMUM_CODE_LENGTH := 128
  const MAXIMUM_TYPE_LENGTH := 512

  /** Terminal reasons and error codes.  The host's own literals are
      constructors; `Text` is any other string a backend or an exception supplies. */
  datatype Code =
    | NotStarted | ResourceAccountingUncertain | StopUnproven
    | BackendIdentityDrift | BackendStartFailed | BackendStartUnproven
    | BackendHandleInvalid | BackendWaitFailed | CohortStop | CohortCancelled
    | SessionWallLimit | PmwPublishFailed | PmwPublishUnavailable
    | PublicationIdentityDrift | HostSessionFailed | RuntimeSessionFailed
    | DiskReserveBreached
    | WorkspaceTotalBytesExceeded | WorkspaceEntryLimitExceeded | WorkspaceDepthLimitExceeded
    | RuntimeCacheTotalBytesExceeded | RuntimeCacheEntryLimitExceeded
    | Text(text: string)

  datatype Status = Succeeded | Failed | Cancelled | Unknown

  datatype StopProof = StopProof(stopped: bool, reason: Code)

  /** A caught exception: its `code` attribute when that is text, and its type name. */
  datatype Exn = Exn(code: Option<Code>, typeName: string)

  datatype RawOutcome = RawOutcome(success: bool, reason: Code, contributions: seq<string>)

  /** The outcome constructor refuses more than 64 contributions. */
  type Outcome = o: RawOutcome | |o.contributions| <= MAXIMUM_CONTRIBUTIONS
    witness RawOutcome(false, HostSessionFailed, [])

  /** Bytes one code point takes in UTF-8. */
  function CharBytes(c: char): (n: nat)
    ensures 1 <= n <= 4
  {
    if (c as int) < 0x80 then 1
    else if (c as int) < 0x800 then 2
    else if (c as int) < 0x10000 then 3
    else 4
  }

  function Utf8Bytes(s: string): nat {
    if s == [] then 0 else CharBytes(s[0]) + Utf8Bytes(s[1..])
  }

  /** The host's own test of an exception's code attribute, counted in characters. */
  predicate UsableCode(c: Code) {
    c.Text? ==> 0 < |c.text| <= MAXIMUM_CODE_LENGTH
  }

  function ErrorCode(e: Exn, default: Code): Code {
    if e.code.Some? && UsableCode(e.code.value) then e.code.value else default
  }

  function SafeType(e: Exn): string {
    if |e.typeName| <= MAXIMUM_TYPE_LENGTH then e.typeName else e.typeName[..MAXIMUM_TYPE_LENGTH]
  }
}
