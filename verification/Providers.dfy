// What a provider call returns and how the worker classifies it.
module Providers {
  import opened Tables
  import opened Lifecycle

  datatype SendResult = SendResult(
    success: bool,
    providerMessageId: Option<string>,
    error: Option<string>,
    isRetryable: bool,
    isAmbiguous: Option<bool>)

  /** The characters that `String.prototype.trim` removes. */
  predicate IsSpace(c: char) {
    var code := c as int;
    || 0x09 <= code <= 0x0D || code == 0x20 || code == 0xA0 || code == 0x1680
    || 0x2000 <= code <= 0x200A || code == 0x2028 || code == 0x2029 || code == 0x202F
    || code == 0x205F || code == 0x3000 || code == 0xFEFF
  }

  predicate IsBlank(s: string) {
    forall i :: 0 <= i < |s| ==> IsSpace(s[i])
  }

  /** White space and line terminators, one by one (sections 12.2 and 12.3 of ECMA-262). */
  const WHITE_SPACE: string :=
    "\t\n\U{000B}\U{000C}\r \U{00A0}\U{1680}" +
    "\U{2000}\U{2001}\U{2002}\U{2003}\U{2004}\U{2005}\U{2006}\U{2007}\U{2008}\U{2009}\U{200A}" +
    "\U{2028}\U{2029}\U{202F}\U{205F}\U{3000}\U{FEFF}"

  lemma SpacesAreListed(c: char)
    ensures IsSpace(c) <==> c in WHITE_SPACE
  {
  }

  predicate HasUsableId(result: SendResult) {
    result.providerMessageId.Some? && !IsBlank(result.providerMessageId.value)
  }

  predicate IsSent(result: SendResult) {
    result.success && HasUsableId(result)
  }

  datatype Classified = Classified(isAmbiguous: bool, isRetryable: bool, errorMessage: Note)

  function Classify(result: SendResult): Classified {
    if result.success then
      Classified(true, false, AcceptedWithoutId)
    else
      Classified(
        result.isAmbiguous == Some(true),
        result.isRetryable,
        if result.error.Some? then Free(result.error.value) else UnknownProviderError)
  }

  /** The finalization the worker asks for after a provider answered. */
  function AnswerOf(result: SendResult, expiryMs: int): FinalizeInput {
    if IsSent(result) then
      AcceptedWith(result.providerMessageId.value)
    else
      var c := Classify(result);
      FailedWith(c.isAmbiguous, c.isRetryable, c.errorMessage, if c.isAmbiguous then Some(expiryMs) else None)
  }

  /** A clean refusal: the provider certainly did not take the message. */
  predicate IsDefinitiveFailure(result: SendResult) {
    !result.success && result.isAmbiguous != Some(true)
  }

  function Pow2(n: nat): (p: nat)
    ensures p > 0
  {
    if n == 0 then 1 else 2 * Pow2(n - 1)
  }

  function BackoffDelayMs(round: nat, baseMs: nat): nat {
    baseMs * Pow2(round)
  }

  function SummarizeFailures(names: seq<string>): Note {
    if names == [] then NoProvidersConfigured else ProvidersFailed(names)
  }

  predicate AllTrue(flags: seq<bool>) {
    forall i :: 0 <= i < |flags| ==> flags[i]
  }

  /** An attempt row is recorded as a definitive failure exactly when the provider's answer was one. */
  lemma RecordedFailureIsReal(row: Attempt, result: SendResult, expiryMs: int)
    ensures RecordOutcome(row, AnswerOf(result, expiryMs)).Definitive() <==> IsDefinitiveFailure(result)
  {
  }
}
