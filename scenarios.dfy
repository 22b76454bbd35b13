/** Concrete cases taken from the QuantumDroneMesh screen's hard-coded
    interface description, and a client session that uses only the contracts
    of the Console class. */
module Scenarios {
  import opened Outcomes
  import opened Values
  import opened Abi
  import opened ArgumentStore
  import opened Dispatch
  import opened ContractConsole

  const MeshConstructor := Entry("constructor", None, Some("nonpayable"), Some([]))
  const IncorrectOwnerError := Entry("error", Some("ERC721IncorrectOwner"), None,
                                     Some([Param("sender", "address"), Param("tokenId", "uint256"), Param("owner", "address")]))
  const PausedEvent := Entry("event", Some("Paused"), None, Some([Param("account", "address")]))
  const SafeTransferFrom3 := Entry("function", Some("safeTransferFrom"), Some("nonpayable"),
                                   Some([Param("from", "address"), Param("to", "address"), Param("tokenId", "uint256")]))
  const SafeTransferFrom4 := Entry("function", Some("safeTransferFrom"), Some("nonpayable"),
                                   Some([Param("from", "address"), Param("to", "address"), Param("tokenId", "uint256"),
                                         Param("data", "bytes")]))

  /** An excerpt of the description in its original order. */
  const MeshExcerpt := [MeshConstructor, IncorrectOwnerError, PausedEvent, SafeTransferFrom3, SafeTransferFrom4]

  /** The constructor, error and event entries are dropped; both overloads stay, in order. */
  lemma MeshExcerptMethods()
    ensures FunctionsOf(MeshExcerpt) == [SafeTransferFrom3, SafeTransferFrom4]
  {
    assert FunctionsOf(MeshExcerpt[4..]) == [SafeTransferFrom4];
    assert FunctionsOf(MeshExcerpt[3..]) == [SafeTransferFrom3, SafeTransferFrom4];
    assert FunctionsOf(MeshExcerpt[2..]) == [SafeTransferFrom3, SafeTransferFrom4];
    assert FunctionsOf(MeshExcerpt[1..]) == [SafeTransferFrom3, SafeTransferFrom4];
  }

  /** The two overloads share one argument array, keyed by their common name:
      after the `data` field of the four-parameter form is filled in, the
      three-parameter form's button dispatches four arguments, the first three
      of them holes. */
  lemma OverloadsShareArguments()
    ensures var store := StoreAfter(map[], NameOf(SafeTransferFrom4), 3, "0x");
            && CallFor(store, NameOf(SafeTransferFrom3)).args == [None, None, None, Some("0x")]
            && |SafeTransferFrom3.inputs.value| == 3
  {
  }

  /** A result array holding a tuple of bigints: the normaliser leaves the
      inner bigints alone, so the read reports JSON.stringify's error. */
  lemma NestedTupleReadFails(chain: Chain, c: Contract, call: Call)
    requires chain.invoke(c, call) == Ok(VArr([VArr([VStr("0x01"), VBig(7)]), VBool(true)]))
    ensures ExecutionResponse(chain, c, call, true) == ErrorPrefix + "Do not know how to serialize a BigInt"
  {
    ReadResponse(chain, c, call);
    assert ContainsBigInt(VArr([VStr("0x01"), VBig(7)])) by {
      assert VArr([VStr("0x01"), VBig(7)]).items[1] == VBig(7);
    }
  }

  /** A bigint element becomes its decimal text, while a string that merely
      looks like a large number and a boolean pass through unchanged. */
  lemma NormaliseMixedArray()
    ensures Normalise(VArr([VBig(1), VStr("9999999999999999999999"), VBool(true)])) ==
            VArr([VStr("1"), VStr("9999999999999999999999"), VBool(true)])
  {
  }

  /** A client of the Console class: nothing is dispatched before the contract
      is installed, initialising installs the filtered methods, and the
      three-parameter overload dispatches the array its sibling filled. */
  method ClientSession(chain: Chain)
  {
    var console := new Console(QuantumDroneMeshAddress);
    console.ExecuteFunction("safeTransferFrom", false, chain);
    assert console.response == "";
    console.InitializeContract(false, Some(MeshExcerpt), true);
    assert console.response == WalletMissing && console.contract == None;
    MeshExcerptMethods();
    console.InitializeContract(true, Some(MeshExcerpt), true);
    assert console.abiMethods == [SafeTransferFrom3, SafeTransferFrom4];
    console.SetInput("safeTransferFrom", 3, "0x");
    console.OnExecuteClicked(SafeTransferFrom3, chain);
    OverloadsShareArguments();
    assert console.response ==
           ExecutionResponse(chain, Contract(QuantumDroneMeshAddress, MeshExcerpt),
                             Call("safeTransferFrom", [None, None, None, Some("0x")]), false);
  }
}
