/**
 * The permit hook of the mini-app (packages/miniapp/src/hooks/usePermit.ts):
 * three state cells (whether a valid permit exists, whether one is being
 * generated, the last error) driven by checking, generating and removing a
 * decryption permit. The SDK's answers (`getPermit`, `createPermit`, the
 * permit store) are inputs to the operations.
 */
module Permit {
  import opened Wrappers
  import Decimal

  /** The hook's three state cells. */
  datatype Flags = Flags(hasValidPermit: bool, isGeneratingPermit: bool, error: Option<string>)

  /** What the hook reads from the wallet and the SDK store when it runs. */
  datatype Env = Env(cofheInitialized: bool, address: Option<string>, chainId: Option<int>)

  /** `cofhejs.getPermit()`: a result with a success flag and possibly no data. */
  datatype GetPermitAnswer = GetPermitAnswer(success: bool, hasData: bool)

  /** A value caught by a `catch` clause. */
  datatype Thrown = ErrorValue(message: string) | NonErrorValue

  /** `cofhejs.createPermit(...)`: success, a failure result with an optional
      error message, or a throw. */
  datatype CreateAnswer = Created | CreateFailed(message: Option<string>) | CreateThrew(thrown: Thrown)

  /** The object `generatePermit` resolves to. */
  datatype Reply = Reply(success: bool, error: Option<string>)

  /** The options passed to `cofhejs.createPermit`. */
  datatype PermitRequest = PermitRequest(kind: string, name: string, issuer: string, expiration: int)

  const NotReadyMessage: string := "Not ready to generate permit"
  const CreateFailedMessage: string := "Failed to create permit"
  const UnknownErrorMessage: string := "Unknown error generating permit"
  const RemoveFailedMessage: string := "Failed to remove permit"

  /** `minikitConfig.miniapp.name`. */
  const AppName: string := "Fhenix MiniApp Demo"

  const PermitLifetimeDays: int := 30
  const MillisPerDay: int := 86400000

  const InitialFlags: Flags := Flags(false, false, None)

  /** `address` is a `string | undefined`: absent and empty are falsy. */
  predicate AddressTruthy(address: Option<string>) {
    address.Some? && address.value != ""
  }

  /** `chainId` is a `number | undefined`: absent and 0 are falsy. */
  predicate ChainTruthy(chainId: Option<int>) {
    chainId.Some? && chainId.value != 0
  }

  // ---------------------------------------------------------------------------
  // checkPermit

  datatype CheckOutcome = CheckOutcome(flags: Flags, active: bool)

  /** `checkPermit`: `getPermit` is consulted only once CoFHE is initialized. */
  function AfterCheckPermit(env: Env, f: Flags, answer: GetPermitAnswer): (r: CheckOutcome)
    ensures r.active <==> env.cofheInitialized && answer.success && answer.hasData
    ensures r.flags == f.(hasValidPermit := r.active)
  {
    if !env.cofheInitialized then CheckOutcome(f.(hasValidPermit := false), false)
    else
      var hasActivePermit := answer.success && answer.hasData;
      CheckOutcome(f.(hasValidPermit := hasActivePermit), hasActivePermit)
  }

  // ---------------------------------------------------------------------------
  // generatePermit

  /** The guard of `generatePermit`: CoFHE initialized, an account connected,
      and no generation already running. */
  predicate ReadyToGenerate(env: Env, f: Flags)
    ensures ReadyToGenerate(env, f) ==> env.address.Some? && env.address.value != ""
    ensures f.isGeneratingPermit || !env.cofheInitialized || env.address.None? ==> !ReadyToGenerate(env, f)
  {
    env.cofheInitialized && AddressTruthy(env.address) && !f.isGeneratingPermit
  }

  /** `Math.round(ms / 1000)` for the date thirty days after `nowMillis`. */
  function ExpirationSeconds(nowMillis: int): (secs: int)
    ensures var due := nowMillis + PermitLifetimeDays * MillisPerDay;
      secs * 1000 - 500 <= due < secs * 1000 + 500
  {
    (nowMillis + PermitLifetimeDays * MillisPerDay + 500) / 1000
  }

  function RequestFor(issuer: string, nowMillis: int): (req: PermitRequest)
    ensures req.kind == "self" && req.name == AppName && req.issuer == issuer
    ensures req.expiration == ExpirationSeconds(nowMillis)
  {
    PermitRequest("self", AppName, issuer, ExpirationSeconds(nowMillis))
  }

  /** The message recorded after an unsuccessful `createPermit`: the SDK's
      message when it has one, otherwise a fixed text. */
  function FailureMessage(answer: CreateAnswer): (msg: string)
    requires !answer.Created?
    ensures answer.CreateFailed? ==> msg != ""
    ensures answer.CreateFailed? && answer.message.Some? && answer.message.value != "" ==>
      msg == answer.message.value
    ensures answer.CreateFailed? && (answer.message.None? || answer.message.value == "") ==>
      msg == CreateFailedMessage
    ensures answer.CreateThrew? ==>
      msg == if answer.thrown.ErrorValue? then answer.thrown.message else UnknownErrorMessage
  {
    match answer
    case CreateFailed(message) =>
      if message.Some? && message.value != "" then message.value else CreateFailedMessage
    case CreateThrew(thrown) =>
      if thrown.ErrorValue? then thrown.message else UnknownErrorMessage
  }

  datatype GenerateOutcome = GenerateOutcome(flags: Flags, reply: Reply)

  /** `generatePermit`, from its guard to the `finally` clause. */
  function AfterGeneratePermit(env: Env, f: Flags, answer: CreateAnswer): (r: GenerateOutcome)
    ensures !ReadyToGenerate(env, f) ==> r == GenerateOutcome(f, Reply(false, Some(NotReadyMessage)))
    ensures ReadyToGenerate(env, f) ==>
      && !r.flags.isGeneratingPermit
      && (r.reply.success <==> answer.Created?)
      && r.reply.error == r.flags.error
    ensures ReadyToGenerate(env, f) && answer.Created? ==>
      r.flags.hasValidPermit && r.flags.error.None?
    ensures ReadyToGenerate(env, f) && !answer.Created? ==>
      r.flags.hasValidPermit == f.hasValidPermit && r.flags.error == Some(FailureMessage(answer))
  {
    if !ReadyToGenerate(env, f) then GenerateOutcome(f, Reply(false, Some(NotReadyMessage)))
    else if answer.Created? then GenerateOutcome(Flags(true, false, None), Reply(true, None))
    else
      var msg := FailureMessage(answer);
      GenerateOutcome(Flags(f.hasValidPermit, false, Some(msg)), Reply(false, Some(msg)))
  }

  /** Once `generatePermit` has returned no generation is in progress, unless
      the call was turned away because one already was. */
  lemma GenerateEndsIdle(env: Env, f: Flags, answer: CreateAnswer)
    ensures AfterGeneratePermit(env, f, answer).flags.isGeneratingPermit ==> f.isGeneratingPermit
    ensures AfterGeneratePermit(env, f, answer).reply.success ==> AfterGeneratePermit(env, f, answer).flags.hasValidPermit
  {
  }

  // ---------------------------------------------------------------------------
  // removePermit

  /** `permitStore`'s records, by (chain id text, account): the permit hashes
      in the order `Object.keys` lists them. */
  type PermitStore = map<(string, string), seq<string>>

  /** The record key: `chainId.toString()` and the account. */
  function StoreKey(chainId: int, address: string): (k: (string, string))
    ensures k.1 == address
    ensures |k.0| >= 1 && (Decimal.AllDigits(k.0) || (k.0[0] == '-' && Decimal.AllDigits(k.0[1..])))
    ensures Decimal.ParseInt(k.0) == chainId
  {
    Decimal.IntToDecimalRoundTrip(chainId);
    (Decimal.IntToDecimal(chainId), address)
  }

  datatype RemoveOutcome = RemoveOutcome(flags: Flags, store: PermitStore, removed: bool)

  /** `allPermits && Object.keys(allPermits).length > 0`. */
  predicate HasStoredPermits(store: PermitStore, chainId: int, address: string)
    ensures HasStoredPermits(store, chainId, address) ==> store != map[]
    ensures HasStoredPermits(store, chainId, address) ==>
      exists k :: k in store && k.1 == address && |store[k]| > 0
  {
    StoreKey(chainId, address) in store && |store[StoreKey(chainId, address)]| > 0
  }

  /** `removePermit`; `removeThrows` says whether `permitStore.removePermit` throws. */
  function AfterRemovePermit(env: Env, f: Flags, answer: GetPermitAnswer, store: PermitStore, removeThrows: bool): (r: RemoveOutcome)
    ensures r.removed <==>
      && env.cofheInitialized && ChainTruthy(env.chainId) && AddressTruthy(env.address)
      && answer.success && answer.hasData
      && HasStoredPermits(store, env.chainId.value, env.address.value)
      && !removeThrows
    ensures r.removed ==>
      var key := StoreKey(env.chainId.value, env.address.value);
      && r.flags == f.(hasValidPermit := false, error := None)
      && r.store == store[key := store[key][1..]]
    ensures !r.removed ==> r.store == store && r.flags.hasValidPermit == f.hasValidPermit
    ensures r.flags.isGeneratingPermit == f.isGeneratingPermit
    ensures (|| !env.cofheInitialized || !ChainTruthy(env.chainId) || !AddressTruthy(env.address)
             || !answer.success || !answer.hasData)
      ==> r.flags == f && r.store == store
    ensures (&& env.cofheInitialized && ChainTruthy(env.chainId) && AddressTruthy(env.address)
             && !HasStoredPermits(store, env.chainId.value, env.address.value))
      ==> r.flags == f && r.store == store
    ensures (&& env.cofheInitialized && ChainTruthy(env.chainId) && AddressTruthy(env.address)
             && answer.success && answer.hasData
             && HasStoredPermits(store, env.chainId.value, env.address.value) && removeThrows)
      ==> r == RemoveOutcome(f.(error := Some(RemoveFailedMessage)), store, false)
  {
    if !env.cofheInitialized || !ChainTruthy(env.chainId) || !AddressTruthy(env.address) then
      RemoveOutcome(f, store, false)
    else if !answer.success || !answer.hasData then
      RemoveOutcome(f, store, false)
    else if !HasStoredPermits(store, env.chainId.value, env.address.value) then
      RemoveOutcome(f, store, false)
    else if removeThrows then
      RemoveOutcome(f.(error := Some(RemoveFailedMessage)), store, false)
    else
      var key := StoreKey(env.chainId.value, env.address.value);
      RemoveOutcome(f.(hasValidPermit := false, error := None), store[key := store[key][1..]], true)
  }

  /** Every way `removePermit` can return false without reaching the store
      leaves the state cells and the store as they were. */
  lemma RemoveGuardsChangeNothing(env: Env, f: Flags, answer: GetPermitAnswer, store: PermitStore, removeThrows: bool)
    requires || !env.cofheInitialized || !ChainTruthy(env.chainId) || !AddressTruthy(env.address)
             || !(answer.success && answer.hasData)
             || !HasStoredPermits(store, env.chainId.value, env.address.value)
    ensures AfterRemovePermit(env, f, answer, store, removeThrows) == RemoveOutcome(f, store, false)
  {
  }

  /** A successful removal drops exactly the first stored hash of that
      account on that chain; other accounts and chains keep theirs. */
  lemma RemoveDropsFirstHash(env: Env, f: Flags, answer: GetPermitAnswer, store: PermitStore, removeThrows: bool)
    requires AfterRemovePermit(env, f, answer, store, removeThrows).removed
    ensures var key := StoreKey(env.chainId.value, env.address.value);
      var after := AfterRemovePermit(env, f, answer, store, removeThrows).store;
      && after.Keys == store.Keys
      && [store[key][0]] + after[key] == store[key]
      && forall k :: k in store && k != key ==> after[k] == store[k]
  {
  }

  /** The chain id is written as decimal text, so different chains never share a store record. */
  lemma StoreKeysDistinguishChains(c1: int, c2: int, a1: string, a2: string)
    requires StoreKey(c1, a1) == StoreKey(c2, a2)
    ensures c1 == c2 && a1 == a2
  {
    Decimal.IntToDecimalInjective(c1, c2);
  }

  // ---------------------------------------------------------------------------
  // The hook's state

  class PermitHook {
    var hasValidPermit: bool
    var isGeneratingPermit: bool
    var error: Option<string>
    /** The SDK's permit store, as `removePermit` sees and changes it. */
    var permits: PermitStore
    /** Every value handed to `setIsGeneratingPermit`, in order. */
    ghost var generatingLog: seq<bool>
    /** Every request handed to `cofhejs.createPermit`, in order. */
    ghost var requests: seq<PermitRequest>

    function State(): Flags
      reads this
    {
      Flags(hasValidPermit, isGeneratingPermit, error)
    }

    constructor (store: PermitStore)
      ensures State() == InitialFlags && permits == store
      ensures generatingLog == [] && requests == []
    {
      hasValidPermit := false;
      isGeneratingPermit := false;
      error := None;
      permits := store;
      generatingLog := [];
      requests := [];
    }

    /** `checkPermit`; `answer` is what `cofhejs.getPermit()` reports. */
    method CheckPermit(env: Env, answer: GetPermitAnswer) returns (active: bool)
      modifies this`hasValidPermit
      ensures CheckOutcome(State(), active) == AfterCheckPermit(env, old(State()), answer)
    {
      if !env.cofheInitialized {
        hasValidPermit := false;
        return false;
      }
      var hasActivePermit := answer.success && answer.hasData;
      hasValidPermit := hasActivePermit;
      return hasActivePermit;
    }

    /** The effect that checks for a permit once CoFHE is initialized. */
    method InitializedEffect(env: Env, answer: GetPermitAnswer)
      modifies this`hasValidPermit
      ensures State() == if env.cofheInitialized then AfterCheckPermit(env, old(State()), answer).flags
                         else old(State())
    {
      if env.cofheInitialized {
        var _ := CheckPermit(env, answer);
      }
    }

    /** `generatePermit` at wall-clock time `nowMillis`; `answer` is what
        `cofhejs.createPermit` does with the request. */
    method GeneratePermit(env: Env, nowMillis: int, answer: CreateAnswer) returns (reply: Reply)
      modifies this`hasValidPermit, this`isGeneratingPermit, this`error, this`generatingLog, this`requests
      ensures GenerateOutcome(State(), reply) == AfterGeneratePermit(env, old(State()), answer)
      ensures ReadyToGenerate(env, old(State())) ==>
        && generatingLog == old(generatingLog) + [true, false]
        && requests == old(requests) + [RequestFor(env.address.value, nowMillis)]
      ensures !ReadyToGenerate(env, old(State())) ==>
        generatingLog == old(generatingLog) && requests == old(requests)
    {
      if !env.cofheInitialized || !AddressTruthy(env.address) || isGeneratingPermit {
        return Reply(false, Some(NotReadyMessage));
      }
      isGeneratingPermit := true;
      generatingLog := generatingLog + [true];
      error := None;
      requests := requests + [RequestFor(env.address.value, nowMillis)];
      match answer {
        case Created =>
          hasValidPermit := true;
          error := None;
          reply := Reply(true, None);
        case CreateFailed(message) =>
          var errorMessage := if message.Some? && message.value != "" then message.value else CreateFailedMessage;
          error := Some(errorMessage);
          reply := Reply(false, Some(errorMessage));
        case CreateThrew(thrown) =>
          var errorMessage := if thrown.ErrorValue? then thrown.message else UnknownErrorMessage;
          error := Some(errorMessage);
          reply := Reply(false, Some(errorMessage));
      }
      // finally
      isGeneratingPermit := false;
      generatingLog := generatingLog + [false];
    }

    /** `removePermit`; `answer` is what `cofhejs.getPermit()` reports and
        `removeThrows` whether `permitStore.removePermit` throws. */
    method RemovePermit(env: Env, answer: GetPermitAnswer, removeThrows: bool) returns (removed: bool)
      modifies this`hasValidPermit, this`error, this`permits
      ensures RemoveOutcome(State(), permits, removed)
        == AfterRemovePermit(env, old(State()), answer, old(permits), removeThrows)
    {
      if !env.cofheInitialized || !ChainTruthy(env.chainId) || !AddressTruthy(env.address) {
        return false;
      }
      if !answer.success || !answer.hasData {
        return false;
      }
      var key := StoreKey(env.chainId.value, env.address.value);
      if key in permits && |permits[key]| > 0 {
        if removeThrows {
          error := Some(RemoveFailedMessage);
          return false;
        }
        permits := permits[key := permits[key][1..]];
      } else {
        return false;
      }
      hasValidPermit := false;
      error := None;
      return true;
    }
  }
}
