/**
 * The encrypted-value toggle of the counter screen
 * (`EncryptedValue` in packages/miniapp/src/components/FHECounter.tsx).
 * Four state cells: the decrypted text, whether it is shown, whether a
 * decryption is running, and an error message. A click either flips the
 * visibility of a value already decrypted or asks the SDK to unseal the
 * ciphertext; a new ciphertext handle clears what was decrypted.
 */
module FheCounter {
  import opened Wrappers
  import Decimal

  /** The four state cells. */
  datatype Display = Display(value: Option<string>, isVisible: bool, isDecrypting: bool, errorMessage: Option<string>)

  /** What `cofhejs.unseal` does: succeed with the plaintext, answer without
      success, or throw. */
  datatype UnsealAnswer = Unsealed(data: int) | NotPermitted | UnsealThrew

  const NotAllowedMessage: string := "You are not allowed to decrypt yet, interact with the contract first"
  const UnexpectedMessage: string := "An unexpected error occurred during decryption"
  const DecryptingText: string := "decrypting..."
  const MaskedText: string := "encryp*ed"

  const Initial: Display := Display(None, false, false, None)

  /** `ctHash` is a `bigint | null | undefined`: absent and `0n` are falsy. */
  predicate HashTruthy(ctHash: Option<int>) {
    ctHash.Some? && ctHash.value != 0
  }

  /** `value` is a `string | null`: absent and the empty string are falsy. */
  predicate ValueTruthy(value: Option<string>) {
    value.Some? && value.value != ""
  }

  /** Every value the component stores is the non-empty text of a plaintext. */
  predicate WellFormed(d: Display) {
    d.value.None? || d.value.value != ""
  }

  /** Whether a click would start a decryption. */
  predicate StartsDecryption(ctHash: Option<int>, d: Display) {
    HashTruthy(ctHash) && !d.isDecrypting && !ValueTruthy(d.value)
  }

  /** The cells once a click (`handleToggle`) has completed; `answer` is what
      unseal would answer, and it is used only when unseal is called. */
  function Toggle(ctHash: Option<int>, d: Display, answer: UnsealAnswer): (e: Display)
    ensures e.isDecrypting == d.isDecrypting
    ensures !StartsDecryption(ctHash, d) ==> e.value == d.value && e.errorMessage == d.errorMessage
    ensures StartsDecryption(ctHash, d) ==>
      && (e.errorMessage.None? <==> answer.Unsealed?)
      && (ValueTruthy(e.value) <==> answer.Unsealed?)
    ensures WellFormed(d) ==> WellFormed(e)
  {
    if !HashTruthy(ctHash) || d.isDecrypting then d
    else if ValueTruthy(d.value) then d.(isVisible := !d.isVisible)
    else
      match answer
      case Unsealed(data) =>
        d.(value := Some(Decimal.IntToDecimal(data)), isVisible := true, errorMessage := None)
      case NotPermitted => d.(errorMessage := Some(NotAllowedMessage))
      case UnsealThrew => d.(errorMessage := Some(UnexpectedMessage))
  }

  /** The effect that runs when `ctHash` changes. */
  function Reset(d: Display): (e: Display)
    ensures e.value.None? && !e.isVisible && e.errorMessage.None?
    ensures e.isDecrypting == d.isDecrypting
  {
    d.(value := None, isVisible := false, errorMessage := None)
  }

  /** `renderContent`. */
  function RenderContent(d: Display): (text: string)
    ensures d.isDecrypting ==> text == DecryptingText
    ensures !d.isDecrypting && ValueTruthy(d.value) && d.isVisible ==> text == d.value.value
    ensures !d.isDecrypting && !(ValueTruthy(d.value) && d.isVisible) ==> text == MaskedText
  {
    if d.isDecrypting then DecryptingText
    else if ValueTruthy(d.value) && d.isVisible then d.value.value
    else MaskedText
  }

  /** `showHint`: the "Click to decrypt" line. */
  predicate ShowHint(ctHash: Option<int>, d: Display)
    ensures ShowHint(ctHash, d) ==> RenderContent(d) == MaskedText
    ensures ShowHint(ctHash, d) ==> !d.isVisible || d.value.None? || d.value.value == ""
  {
    !ValueTruthy(d.value) && !d.isDecrypting && HashTruthy(ctHash)
  }

  /** A click does nothing without a truthy handle or while a decryption runs. */
  lemma ToggleIgnored(ctHash: Option<int>, d: Display, answer: UnsealAnswer)
    requires !HashTruthy(ctHash) || d.isDecrypting
    ensures Toggle(ctHash, d, answer) == d
  {
  }

  /** With a decrypted value a click only flips the visibility, and a second
      click restores the cells, whatever unseal would have answered. */
  lemma ToggleTwiceRestores(ctHash: Option<int>, d: Display, a1: UnsealAnswer, a2: UnsealAnswer)
    requires HashTruthy(ctHash) && !d.isDecrypting && ValueTruthy(d.value)
    ensures Toggle(ctHash, d, a1) == d.(isVisible := !d.isVisible)
    ensures Toggle(ctHash, Toggle(ctHash, d, a1), a2) == d
  {
  }

  /** A successful unseal stores the plaintext's decimal text, which reads back
      as the plaintext, and shows it. */
  lemma ToggleSuccessShowsPlaintext(ctHash: Option<int>, d: Display, n: int)
    requires StartsDecryption(ctHash, d)
    ensures var e := Toggle(ctHash, d, Unsealed(n));
      && e.value == Some(Decimal.IntToDecimal(n))
      && e.isVisible && !e.isDecrypting && e.errorMessage.None?
      && RenderContent(e) == Decimal.IntToDecimal(n)
      && Decimal.ParseInt(RenderContent(e)) == n
  {
    Decimal.IntToDecimalRoundTrip(n);
  }

  /** A refused or failed unseal keeps the component without a value, shows
      the masked text and the matching message, and leaves the hint up. */
  lemma ToggleFailureKeepsNoValue(ctHash: Option<int>, d: Display, answer: UnsealAnswer)
    requires StartsDecryption(ctHash, d) && WellFormed(d) && !answer.Unsealed?
    ensures var e := Toggle(ctHash, d, answer);
      && e.value.None?
      && e.errorMessage == Some(if answer.NotPermitted? then NotAllowedMessage else UnexpectedMessage)
      && RenderContent(e) == MaskedText
      && ShowHint(ctHash, e)
  {
  }

  /** After a new handle, nothing decrypted is shown and, unless a decryption
      is still running, the hint invites a click exactly when the handle is truthy. */
  lemma ResetHidesValue(ctHash: Option<int>, d: Display)
    ensures RenderContent(Reset(d)) == if d.isDecrypting then DecryptingText else MaskedText
    ensures !d.isDecrypting ==> (ShowHint(ctHash, Reset(d)) <==> HashTruthy(ctHash))
    ensures StartsDecryption(ctHash, Reset(d)) <==> HashTruthy(ctHash) && !d.isDecrypting
  {
  }

  /** The "Click to decrypt" hint is up exactly when a click would start a decryption. */
  lemma HintMeansClickDecrypts(ctHash: Option<int>, d: Display)
    ensures ShowHint(ctHash, d) <==> StartsDecryption(ctHash, d)
    ensures ShowHint(ctHash, d) ==> RenderContent(d) == MaskedText
  {
  }

  /** The decrypted text is on screen only when it is visible. */
  lemma HiddenValueNeverRendered(d: Display)
    requires !d.isVisible
    ensures RenderContent(d) in {DecryptingText, MaskedText}
  {
  }

  /** The component, with its four state cells. */
  class EncryptedValue {
    var ctHash: Option<int>
    var value: Option<string>
    var isVisible: bool
    var isDecrypting: bool
    var errorMessage: Option<string>
    /** Every value handed to `setIsDecrypting`, in order. */
    ghost var decryptingLog: seq<bool>
    /** How many times `cofhejs.unseal` was called. */
    ghost var unsealCalls: nat

    function State(): Display
      reads this
    {
      Display(value, isVisible, isDecrypting, errorMessage)
    }

    /** Mounting: the cells start empty, and the reset effect runs once. */
    constructor (hash: Option<int>)
      ensures ctHash == hash && State() == Initial
      ensures decryptingLog == [] && unsealCalls == 0
    {
      ctHash := hash;
      value := None;
      isVisible := false;
      isDecrypting := false;
      errorMessage := None;
      decryptingLog := [];
      unsealCalls := 0;
    }

    /** A new `ctHash` prop; the reset effect runs only when it differs. */
    method ChangeHash(hash: Option<int>)
      modifies this
      ensures ctHash == hash
      ensures State() == if hash != old(ctHash) then Reset(old(State())) else old(State())
      ensures decryptingLog == old(decryptingLog) && unsealCalls == old(unsealCalls)
    {
      if hash != ctHash {
        value := None;
        isVisible := false;
        errorMessage := None;
      }
      ctHash := hash;
    }

    /** `handleToggle`; `answer` stands for what `cofhejs.unseal` answers. */
    method HandleToggle(answer: UnsealAnswer)
      modifies this
      ensures ctHash == old(ctHash)
      ensures State() == Toggle(old(ctHash), old(State()), answer)
      ensures StartsDecryption(old(ctHash), old(State())) ==>
        decryptingLog == old(decryptingLog) + [true, false] && unsealCalls == old(unsealCalls) + 1
      ensures !StartsDecryption(old(ctHash), old(State())) ==>
        decryptingLog == old(decryptingLog) && unsealCalls == old(unsealCalls)
    {
      if !HashTruthy(ctHash) || isDecrypting {
        return;
      }
      if ValueTruthy(value) {
        isVisible := !isVisible;
        return;
      }
      isDecrypting := true;
      decryptingLog := decryptingLog + [true];
      errorMessage := None;
      unsealCalls := unsealCalls + 1;
      match answer {
        case Unsealed(data) =>
          value := Some(Decimal.IntToDecimal(data));
          isVisible := true;
        case NotPermitted =>
          errorMessage := Some(NotAllowedMessage);
        case UnsealThrew =>
          errorMessage := Some(UnexpectedMessage);
      }
      // finally
      isDecrypting := false;
      decryptingLog := decryptingLog + [false];
    }
  }
}
