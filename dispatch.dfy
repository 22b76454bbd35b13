/** The invocation dispatcher: the classification of a method as a read or a
    write, the call it issues, and the response text it leaves behind. The
    chain is an oracle that answers each call with a value or a thrown error. */
module Dispatch {
  import opened Outcomes
  import opened Values
  import opened Abi
  import opened ArgumentStore

  /** What `new ethers.Contract(address, abi, signer)` was built from. */
  datatype Contract = Contract(address: string, abi: seq<Entry>)

  /** `contract[method](...args)`: the method name and the argument array spread into the call. */
  datatype Call = Call(methodName: string, args: seq<Slot>)

  /** The network behind the signer. `invoke` answers the awaited call
      `contract[method](...args)`; `wait` answers the awaited `.wait()` on
      whatever that call returned (a transaction, or any other value, on which
      `.wait` may well throw). */
  datatype Chain = Chain(invoke: (Contract, Call) -> Outcome<Value>, wait: Value -> Outcome<Value>)

  const FetchedPrefix := "✅ Fetched: "
  const TransactionSuccessful := "✅ Transaction successful"
  const ErrorPrefix := "❌ Error: "

  /** `fn.stateMutability === "view"`: the flag the Fetch/Execute button passes. */
  function IsView(e: Entry): bool
  {
    e.stateMutability == Some("view")
  }

  /** The call executeFunction issues for a method name: the whole argument
      array stored under that name, in positional order, or no arguments. */
  function CallFor(store: Store, name: string): Call
  {
    Call(name, ListOf(store, name))
  }

  /** The awaited result: the call's own result on the read path; on the write
      path, the result of waiting on what the call returned. */
  function Settled(chain: Chain, c: Contract, call: Call, isView: bool): Outcome<Value>
  {
    var sent := chain.invoke(c, call);
    if isView || sent.Err? then sent else chain.wait(sent.value)
  }

  /** The response the try/catch block of executeFunction leaves. */
  function ExecutionResponse(chain: Chain, c: Contract, call: Call, isView: bool): string
  {
    match Settled(chain, c, call, isView)
    case Err(e) => ErrorPrefix + Describe(e)
    case Ok(v) =>
      var formatted := Normalise(v);
      if !isView then TransactionSuccessful
      else
        match Serialise(formatted)
        case Ok(json) => FetchedPrefix + json
        case Err(e) => ErrorPrefix + Describe(e)
  }

  /** A response reports success when it starts with the check mark. */
  predicate IsSuccess(r: string)
  {
    |r| > 0 && r[0] == '✅'
  }

  /** A response reports failure when it starts with the error prefix. */
  predicate IsFailure(r: string)
  {
    ErrorPrefix <= r
  }

  /** Every execution ends in exactly one of: the fetched result, the
      transaction confirmation, or an error carrying the message of what was
      thrown, by the call, by the wait, or by JSON.stringify on a bigint. */
  lemma ExactlyOneResponse(chain: Chain, c: Contract, call: Call, isView: bool)
    ensures var r := ExecutionResponse(chain, c, call, isView);
            IsSuccess(r) != IsFailure(r)
    ensures var r := ExecutionResponse(chain, c, call, isView);
            IsSuccess(r) ==> (if isView then FetchedPrefix <= r else r == TransactionSuccessful)
    ensures var r := ExecutionResponse(chain, c, call, isView);
            var s := Settled(chain, c, call, isView);
            IsFailure(r) ==>
              || (s.Err? && r == ErrorPrefix + Describe(s.error))
              || (s.Ok? && isView && r == ErrorPrefix + Describe(BigIntNotSerialisable))
  {
    var s := Settled(chain, c, call, isView);
    if s.Ok? && isView {
      SerialiseFailsOnBigInt(Normalise(s.value));
    }
  }

  /** The read path: a thrown call reports its message; a result with a bigint
      nested inside an inner array makes JSON.stringify throw; any other result
      is reported as the serialisation of its normalised form. */
  lemma ReadResponse(chain: Chain, c: Contract, call: Call)
    ensures var r := ExecutionResponse(chain, c, call, true);
            match chain.invoke(c, call)
            case Err(e) => r == ErrorPrefix + Describe(e)
            case Ok(v) =>
              if HasNestedBigInt(v) then r == ErrorPrefix + Describe(BigIntNotSerialisable)
              else Serialise(Normalise(v)).Ok? && r == FetchedPrefix + Serialise(Normalise(v)).value
  {
    match chain.invoke(c, call)
    case Err(e) =>
    case Ok(v) =>
      NormalisedContainsBigInt(v);
      SerialiseFailsOnBigInt(Normalise(v));
  }

  /** The read path never waits: its response does not depend on `wait`. */
  lemma ReadNeverWaits(invoke: (Contract, Call) -> Outcome<Value>, w1: Value -> Outcome<Value>,
                       w2: Value -> Outcome<Value>, c: Contract, call: Call)
    ensures ExecutionResponse(Chain(invoke, w1), c, call, true) == ExecutionResponse(Chain(invoke, w2), c, call, true)
  {
  }

  /** The write path reports success only when the call returned and waiting on
      its result also succeeded; otherwise it reports the first thrown error.
      The value the wait yields is never shown. */
  lemma WriteResponse(chain: Chain, c: Contract, call: Call)
    ensures var r := ExecutionResponse(chain, c, call, false);
            match chain.invoke(c, call)
            case Err(e) => r == ErrorPrefix + Describe(e)
            case Ok(tx) =>
              match chain.wait(tx)
              case Err(e) => r == ErrorPrefix + Describe(e)
              case Ok(_) => r == TransactionSuccessful
    ensures IsSuccess(ExecutionResponse(chain, c, call, false)) <==>
            chain.invoke(c, call).Ok? && chain.wait(chain.invoke(c, call).value).Ok?
  {
  }

  /** Only a method whose mutability is exactly "view" is fetched; "pure",
      "payable", "nonpayable" or a missing mutability all go through the wait,
      and report success only once it succeeds. */
  lemma ClassificationDecidesPath(chain: Chain, c: Contract, store: Store, fn: Entry)
    ensures var r := ExecutionResponse(chain, c, CallFor(store, NameOf(fn)), IsView(fn));
            FetchedPrefix <= r ==> fn.stateMutability == Some("view")
    ensures var r := ExecutionResponse(chain, c, CallFor(store, NameOf(fn)), IsView(fn));
            fn.stateMutability != Some("view") && IsSuccess(r) ==>
              r == TransactionSuccessful && chain.wait(chain.invoke(c, CallFor(store, NameOf(fn))).value).Ok?
  {
    var call := CallFor(store, NameOf(fn));
    var r := ExecutionResponse(chain, c, call, IsView(fn));
    ExactlyOneResponse(chain, c, call, IsView(fn));
    if !IsView(fn) {
      WriteResponse(chain, c, call);
      assert TransactionSuccessful[2] != FetchedPrefix[2];
      assert ErrorPrefix[0] != FetchedPrefix[0];
      assert !(FetchedPrefix <= r) by {
        if IsFailure(r) {
          assert r[0] == ErrorPrefix[0];
        } else {
          assert r == TransactionSuccessful;
        }
      }
    }
  }
}
