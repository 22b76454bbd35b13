/** The per-method argument store: a record from method name to the raw
    strings typed into that method's input fields, by position. */
module ArgumentStore {
  import opened Outcomes

  /** One position of a method's argument array. `None` is a hole: a position
      below the array's length that was never written (`undefined` when read). */
  type Slot = Option<string>

  /** `inputValues: Record<string, string[]>` */
  type Store = map<string, seq<Slot>>

  /** `inputValues[name] || []`: the method's array, or a fresh empty one when
      the method has never been edited. */
  function ListOf(store: Store, name: string): seq<Slot>
  {
    if name in store then store[name] else []
  }

  /** The effect of `currentValues[index] = value` on a JavaScript array: the
      position is written, every other position keeps its slot, and writing
      past the end extends the array to index + 1 with holes in between. */
  function Assigned(list: seq<Slot>, index: nat, value: string): (r: seq<Slot>)
    ensures |r| == if index < |list| then |list| else index + 1
    ensures r[index] == Some(value)
    ensures forall j :: 0 <= j < |list| && j != index ==> r[j] == list[j]
    ensures forall j :: |list| <= j < |r| && j != index ==> r[j] == None
  {
    if index < |list| then list[index := Some(value)]
    else list + seq(index - |list|, _ => None) + [Some(value)]
  }

  /** The updater's body: `[...prev[name]]` copies the array (or starts from
      `[]`), then one position is assigned in place. */
  method CopyAndAssign(current: seq<Slot>, index: nat, value: string) returns (updated: seq<Slot>)
    ensures updated == Assigned(current, index, value)
  {
    var length := if index < |current| then |current| else index + 1;
    var copy := new Slot[length](j requires 0 <= j < length => if j < |current| then current[j] else None);
    copy[index] := Some(value);
    updated := copy[..];
  }

  /** The store after `setInputValues` for (name, index, value): only `name`'s
      array changes, and it changes as Assigned says. */
  function StoreAfter(store: Store, name: string, index: nat, value: string): Store
  {
    store[name := Assigned(ListOf(store, name), index, value)]
  }

  /** `inputValues[fn.name]?.[index] || ""`: what an input field shows. A
      missing array, a position past its end and a hole all read as "". */
  function Shown(store: Store, name: string, index: nat): string
  {
    if name in store && index < |store[name]| && store[name][index].Some? then store[name][index].value else ""
  }

  /** After an edit the field shows the value written; every other field, of
      this method or any other, shows what it showed before, and every other
      method's array is untouched. */
  lemma {:induction false} StoreAfterShown(store: Store, name: string, index: nat, value: string, other: string, j: nat)
    ensures Shown(StoreAfter(store, name, index, value), name, index) == value
    ensures (other, j) != (name, index) ==>
              Shown(StoreAfter(store, name, index, value), other, j) == Shown(store, other, j)
    ensures other != name ==> ListOf(StoreAfter(store, name, index, value), other) == ListOf(store, other)
  {
  }

  /** One edit of an input field. */
  datatype Edit = Edit(name: string, index: nat, value: string)

  /** The store after a sequence of edits, applied in order. */
  function Replay(store: Store, edits: seq<Edit>): Store
    decreases |edits|
  {
    if edits == [] then store
    else
      var last := edits[|edits| - 1];
      StoreAfter(Replay(store, edits[..|edits| - 1]), last.name, last.index, last.value)
  }

  /** The value of the last edit to field (name, index), if any. */
  function LastWrite(edits: seq<Edit>, name: string, index: nat): Option<string>
    decreases |edits|
  {
    if edits == [] then None
    else
      var last := edits[|edits| - 1];
      if last.name == name && last.index == index then Some(last.value)
      else LastWrite(edits[..|edits| - 1], name, index)
  }

  /** After any sequence of edits each field shows the last value written to
      it; a field never written shows what it showed before (so "" when the
      store started empty). */
  lemma {:induction false} ReplayShowsLastWrite(store: Store, edits: seq<Edit>, name: string, index: nat)
    ensures Shown(Replay(store, edits), name, index) ==
            match LastWrite(edits, name, index)
            case Some(v) => v
            case None => Shown(store, name, index)
    decreases |edits|
  {
    if edits != [] {
      var last := edits[|edits| - 1];
      var prefix := edits[..|edits| - 1];
      ReplayShowsLastWrite(store, prefix, name, index);
      StoreAfterShown(Replay(store, prefix), last.name, last.index, last.value, name, index);
    }
  }
}
