# Contract-console invocation engine, modelled in Dafny

The two contract-console screens of the Oracle Drone Protocol front end,
`src/components/UnifiedOracleDrone.tsx` and `src/components/QuantumDroneMesh.tsx`,
contain the same invocation engine, line for line. In QuantumDroneMesh.tsx each
line sits 75 lines above its counterpart in UnifiedOracleDrone.tsx: for example,
`generateInterfaceCode` is at 888-903 against 963-978. The engine is modelled
once here, as the class `ContractConsole.Console`. The class is built with the
hard-coded contract address of either screen (`UnifiedOracleDroneAddress`,
`QuantumDroneMeshAddress`).

The engine has five parts:

- **Descriptor filter** (`Abi.FunctionsOf`). It keeps the interface-description
  entries whose `type` is `"function"` and drops constructor, error and event
  entries.
- **Interface-text generator** (`Abi.InterfaceCode`). It writes one
  `name(p: t, ...): Promise<any>;` line per kept method, inside
  `interface ContractInterface { ... }`.
- **Argument store** (`ArgumentStore`). This is the `inputValues` record. It
  maps a method name to a JavaScript array of raw strings, updated one position
  at a time by the field's `onChange` updater.
- **Dispatcher** (`Dispatch`, `Console.ExecuteFunction`).
  - It does nothing without a contract.
  - Otherwise it clears the response and calls `contract[m](...args)`.
  - A method whose `stateMutability` is exactly `"view"` takes the read path.
    Every other method also awaits `.wait()` on what the call returned.
  - One response results: `✅ Fetched: <json>`, `✅ Transaction successful` or
    `❌ Error: <message>`.
- **Result normaliser** (`Values.Normalise`). It turns a bigint into its exact
  decimal text, at the top level or one array level deep. `JSON.stringify`
  (`Values.Serialise`) then throws on any bigint still inside the result.

The network is an oracle, `Dispatch.Chain`:
- `invoke` answers the awaited call `contract[m](...args)` with a value or a
  thrown error.
- `wait` answers the awaited `.wait()` on whatever that call returned.

The same `invoke` serves both paths, because the source issues the same
expression on both. The signer, the outcome of `JSON.parse` and whether
`new ethers.Contract` throws are inputs of `Console.InitializeContract`.

Behaviour of the code that a reader might not expect, and that the model
keeps as it is:
- Positions never written in an argument array are holes. They are passed to
  the call as `undefined` (`None` here) and shown in their field as `""`.
- Dispatch without a contract shows an alert and leaves the response alone.
  The wallet message comes only from initialisation.
- Re-initialising keeps `inputValues`: argument fields survive a reload of
  the method list.
- A function entry without a name is not rejected. Its name renders as
  `undefined`.
- Normalisation is one level deep, not recursive. So a bigint inside an inner
  array or tuple reaches `JSON.stringify`, and the read reports its `TypeError`.
- Overloads that share a name all appear in the interface text. They also share
  one argument array, and the whole array is passed whatever the overload's
  arity.

## Model

| member | source | states |
|---|---|---|
| `Abi.FunctionsOf` | src/components/UnifiedOracleDrone.tsx:990 | the kept entries are exactly the input entries typed "function": every kept entry is one, and every such input entry is kept |
| `Abi.FunctionsOfAppend` | src/components/QuantumDroneMesh.tsx:915 | filtering a concatenation concatenates the filtered parts, so the original order is kept |
| `Abi.FunctionsOfOnlyFunctions` | src/components/UnifiedOracleDrone.tsx:990 | a description made only of function entries passes the filter unchanged |
| `Abi.ParamsInDeclaredOrder` | src/components/UnifiedOracleDrone.tsx:969-971 | parameters appear as `name: type` in declared order, joined by ", ": one more parameter appends ", name: type" |
| `Abi.InterfaceCodeLines` | src/components/UnifiedOracleDrone.tsx:963-978 | split on newlines, the interface text is "", the `interface ContractInterface {` line, one two-space-indented line per method in list order (a lone "  " line when there are none), "}" and "    " |
| `Abi.BodyLines` | src/components/QuantumDroneMesh.tsx:890-898 | the joined method lines contribute exactly one indented line per method, in order |
| `Values.Digits` | src/components/UnifiedOracleDrone.tsx:1024 | the decimal digits of a natural number are non-empty, have no leading zero and read back as that number |
| `Values.BigIntToString` | src/components/UnifiedOracleDrone.tsx:1024-1026 | `bigint.toString()` is lossless and canonical: its text reads back as the same integer, has no leading zero, and starts with '-' (followed by a non-zero digit) exactly for negatives |
| `Values.Normalise` | src/components/UnifiedOracleDrone.tsx:1023-1027 | no bigint is left at the top level or directly inside an array; each one there became the canonical decimal string reading back as the same integer; arrays keep their length; every other value, nested arrays included, is unchanged |
| `Values.NormaliseIdempotent` | src/components/QuantumDroneMesh.tsx:948-952 | normalising twice equals normalising once |
| `Values.SerialiseFailsOnBigInt` | src/components/UnifiedOracleDrone.tsx:1031 | JSON.stringify throws exactly when a bigint occurs at any depth, and then with the bigint TypeError |
| `Values.SerialiseItemsFailsOnBigInt` | src/components/UnifiedOracleDrone.tsx:1031 | serialising array elements throws exactly when some element holds a bigint |
| `Values.NormalisedContainsBigInt` | src/components/UnifiedOracleDrone.tsx:1023-1031 | a normalised result still holds a bigint exactly when the raw result is an array with an inner array holding one |
| `ArgumentStore.Assigned` | src/components/UnifiedOracleDrone.tsx:1140 | the assignment writes the position, keeps every other position, and extends the length to max(old length, index + 1) with holes |
| `ArgumentStore.CopyAndAssign` | src/components/UnifiedOracleDrone.tsx:1139-1140 | copying the array into a fresh one and assigning one position in place yields exactly the assigned array |
| `ArgumentStore.StoreAfterShown` | src/components/UnifiedOracleDrone.tsx:1136-1142 | after an edit the field shows the value written; every other field of every method shows what it did before; other methods' arrays are untouched |
| `ArgumentStore.ReplayShowsLastWrite` | src/components/QuantumDroneMesh.tsx:1061-1067 | after any sequence of edits each field shows the last value written to it, and a never-written field shows what it showed before ("" from an empty store) |
| `Dispatch.ExactlyOneResponse` | src/components/UnifiedOracleDrone.tsx:1017-1037 | every execution ends in exactly one of success or failure; success is a fetched result on the read path and the transaction message on the write path; failure is "❌ Error: " plus the message of the error the call or the wait threw, or, on the read path, of JSON.stringify's bigint TypeError |
| `Dispatch.ReadResponse` | src/components/UnifiedOracleDrone.tsx:1018-1036 | on the read path a thrown call reports its message, a result with a bigint in an inner array reports the JSON.stringify TypeError, and any other result reports "✅ Fetched: " plus the serialised normalised result |
| `Dispatch.ReadNeverWaits` | src/components/UnifiedOracleDrone.tsx:1019-1020 | the read path's response does not depend on `.wait()` |
| `Dispatch.WriteResponse` | src/components/UnifiedOracleDrone.tsx:1019-1036 | on the write path success is reported exactly when the call and the wait on its result both succeed; otherwise the first thrown message is reported |
| `Dispatch.ClassificationDecidesPath` | src/components/UnifiedOracleDrone.tsx:1160 | a fetched response happens only for mutability exactly "view"; for any other mutability (pure, payable, nonpayable, missing) success means the transaction message after a successful wait |
| `ContractConsole.Console.constructor` | src/components/UnifiedOracleDrone.tsx:956-960 | the initial state: no contract, empty response, no methods, no arguments, no interface text |
| `ContractConsole.Console.InitializeContract` | src/components/UnifiedOracleDrone.tsx:981-1007 | without a signer only the response changes, to the wallet message; if parsing or contract construction throws only the response changes, to the invalid-ABI message; otherwise methods, contract, interface text and response are replaced together; argument fields are kept |
| `ContractConsole.Console.SetInput` | src/components/UnifiedOracleDrone.tsx:1137-1142 | the store becomes StoreAfter of the old store: only that method's array changes, by the positional assignment |
| `ContractConsole.Console.ExecuteFunction` | src/components/UnifiedOracleDrone.tsx:1010-1038 | without a contract the response is unchanged; otherwise the stored arguments of the method are passed and the response is ExecutionResponse |
| `ContractConsole.Console.OnExecuteClicked` | src/components/QuantumDroneMesh.tsx:1085 | a method's button executes it by name, as a read exactly when its mutability is "view" |
| `Scenarios.MeshExcerptMethods` | src/components/QuantumDroneMesh.tsx:20-673 | on the screen's own constructor and `ERC721IncorrectOwner` error (lines 20-45), `Paused` event (lines 222-233) and two `safeTransferFrom` entries (lines 623-673), the filter keeps exactly the two overloads, in order |
| `Scenarios.OverloadsShareArguments` | src/components/QuantumDroneMesh.tsx:623-673 | after the `data` field of the four-parameter `safeTransferFrom` is filled in, the three-parameter overload dispatches four arguments, three of them holes |
| `Scenarios.NestedTupleReadFails` | src/components/QuantumDroneMesh.tsx:948-961 | a result array holding a tuple of bigints makes the read report "❌ Error: Do not know how to serialize a BigInt" |
| `Scenarios.NormaliseMixedArray` | src/components/QuantumDroneMesh.tsx:948-949 | in `[1n, "9999999999999999999999", true]` the bigint becomes "1" and the other two elements pass through unchanged |

## Left out

- JSX markup, styles, logos, the response colour and the `useEffect` that runs
  initialisation when a signer appears: these are presentation and trigger
  plumbing.
- The wallet hook (`useMetamask`). The signer is a boolean input of
  `InitializeContract`.
- `JSON.parse` of the hard-coded description. Its outcome is an input: the
  parsed entries, or `None` when parsing or the `.filter` call throws.
- `new ethers.Contract`. Whether it throws is a boolean input. The contract is
  recorded as the address and entries it was built from.
- The real call, send and `.wait()` against the chain. These are the oracle
  `Dispatch.Chain`. What ethers does for each mutability is not modelled. In
  particular, a "pure" method takes the write path, and whether `.wait()`
  exists on what its call returns is up to the oracle.
- `alert`, `console.log` and `console.error`: side-effect plumbing with no
  effect on state.
- The empty response that `executeFunction` sets before its awaits is visible
  only while a call is pending. Calls are modelled one at a time, so only the
  final response is stated. Overlapping invocations are not modelled.
- `JSON.stringify` on values other than bigints, strings, booleans and arrays
  is not modelled. Such a value is `VOther` carrying its own JSON text.
- The message of the `TypeError` that `JSON.stringify` throws on a bigint
  follows V8's wording. Other engines word it differently.
- The elements of an argument array are strings or holes only. The input
  field only ever writes strings.
- `src/components/WhitePaper.tsx` and `src/components/InstructionPage.tsx`:
  static text pages with no logic.
