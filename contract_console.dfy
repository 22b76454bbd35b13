/** The state of one contract-console screen and the three operations that
    change it: initialising the contract, editing an argument field, and
    executing a method. Both screens run this same engine against their own
    hard-coded contract address. */
module ContractConsole {
  import opened Outcomes
  import opened Values
  import opened Abi
  import opened ArgumentStore
  import opened Dispatch

  const WalletMissing := "❌ Please connect your wallet."
  const InvalidAbiOrAddress := "❌ Invalid ABI or contract address."
  const ContractInitialized := "✅ Contract Initialized!"

  const UnifiedOracleDroneAddress := "0xC4858Be910794946580e5270B0CCF49aeD9541EF"
  const QuantumDroneMeshAddress := "0xE9ECA5603D31250A71f56F57B4d7850E4F8323D1"

  class Console {
    /** HARD_CODED_CONTRACT_ADDRESS of the screen. */
    const address: string

    // the component's state fields
    var contract: Option<Contract>
    var response: string
    var abiMethods: seq<Entry>
    var inputValues: Store
    var interfaceCode: string

    /** The method list, the contract and the interface text are installed
        together: either none is set, or the methods are the function entries
        of the contract's description and the text is generated from them. */
    ghost predicate Valid()
      reads this
    {
      && (contract.None? ==> abiMethods == [] && interfaceCode == "")
      && (contract.Some? ==>
            && contract.value.address == address
            && abiMethods == FunctionsOf(contract.value.abi)
            && interfaceCode == InterfaceCode(abiMethods))
    }

    /** The initial state of the `useState` hooks. */
    constructor (address: string)
      ensures Valid()
      ensures this.address == address
      ensures contract == None && response == "" && abiMethods == [] && inputValues == map[] && interfaceCode == ""
    {
      this.address := address;
      contract := None;
      response := "";
      abiMethods := [];
      inputValues := map[];
      interfaceCode := "";
    }

    /** initializeContract. `signer` says whether a wallet signer is present;
        `parsed` is JSON.parse's result when it is an array of entries, and
        None when parsing or filtering throws; `constructs` says whether
        `new ethers.Contract` succeeds. Without a signer, or on a throw, only
        the response changes; otherwise methods, contract, interface text and
        response are all replaced. Argument fields are kept either way. */
    method InitializeContract(signer: bool, parsed: Option<seq<Entry>>, constructs: bool)
      requires Valid()
      modifies this
      ensures Valid()
      ensures inputValues == old(inputValues)
      ensures !signer ==>
                && response == WalletMissing
                && contract == old(contract) && abiMethods == old(abiMethods) && interfaceCode == old(interfaceCode)
      ensures signer && (parsed.None? || !constructs) ==>
                && response == InvalidAbiOrAddress
                && contract == old(contract) && abiMethods == old(abiMethods) && interfaceCode == old(interfaceCode)
      ensures signer && parsed.Some? && constructs ==>
                && contract == Some(Contract(address, parsed.value))
                && abiMethods == FunctionsOf(parsed.value)
                && interfaceCode == InterfaceCode(abiMethods)
                && response == ContractInitialized
    {
      if !signer {
        response := WalletMissing;
        return;
      }
      if parsed.None? {
        response := InvalidAbiOrAddress;
        return;
      }
      var filteredMethods := FunctionsOf(parsed.value);
      if !constructs {
        response := InvalidAbiOrAddress;
        return;
      }
      abiMethods := filteredMethods;
      contract := Some(Contract(address, parsed.value));
      interfaceCode := InterfaceCode(filteredMethods);
      response := ContractInitialized;
    }

    /** The `onChange` updater of argument field `index` of method `name`. */
    method SetInput(name: string, index: nat, value: string)
      modifies this`inputValues
      ensures inputValues == StoreAfter(old(inputValues), name, index, value)
    {
      var current := if name in inputValues then inputValues[name] else [];
      var currentValues := CopyAndAssign(current, index, value);
      inputValues := inputValues[name := currentValues];
    }

    /** executeFunction. With no contract nothing happens (the alert is not
        modelled). Otherwise the response is cleared, the stored arguments of
        `methodName` are passed to the call, and the response ends as
        ExecutionResponse says. */
    method ExecuteFunction(methodName: string, isView: bool, chain: Chain)
      requires Valid()
      modifies this`response
      ensures Valid()
      ensures old(contract).None? ==> response == old(response)
      ensures old(contract).Some? ==>
                response == ExecutionResponse(chain, contract.value, CallFor(inputValues, methodName), isView)
    {
      if contract.None? {
        return;
      }
      response := "";
      var args := ListOf(inputValues, methodName);
      var result: Outcome<Value>;
      if isView {
        result := chain.invoke(contract.value, Call(methodName, args));
      } else {
        var sent := chain.invoke(contract.value, Call(methodName, args));
        result := if sent.Ok? then chain.wait(sent.value) else sent;
      }
      match result {
        case Err(e) =>
          response := ErrorPrefix + Describe(e);
        case Ok(v) =>
          var formattedResult := Normalise(v);
          if isView {
            var json := Serialise(formattedResult);
            match json {
              case Ok(text) => response := FetchedPrefix + text;
              case Err(e) => response := ErrorPrefix + Describe(e);
            }
          } else {
            response := TransactionSuccessful;
          }
      }
    }

    /** The Fetch/Execute button of a listed method: executes it under its
        name, as a read exactly when its mutability is "view". */
    method OnExecuteClicked(fn: Entry, chain: Chain)
      requires Valid()
      modifies this`response
      ensures Valid()
      ensures old(contract).None? ==> response == old(response)
      ensures old(contract).Some? ==>
                response == ExecutionResponse(chain, contract.value, CallFor(inputValues, NameOf(fn)), IsView(fn))
    {
      ExecuteFunction(NameOf(fn), IsView(fn), chain);
    }
  }
}
