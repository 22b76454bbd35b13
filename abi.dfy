/** Interface-description entries, the filter that keeps the callable methods,
    and the TypeScript interface text generated from them. */
module Abi {
  import opened Outcomes

  /** One declared parameter: ABIInput { name, type }. */
  datatype Param = Param(name: string, abiType: string)

  /** One entry of a parsed interface description (ABIItem). `entryType` is the
      entry's `type` ("function", "constructor", "error", "event", ...);
      `name`, `stateMutability` and `inputs` are optional fields (a constructor
      entry has no name). */
  datatype Entry = Entry(entryType: string, name: Option<string>, stateMutability: Option<string>, inputs: Option<seq<Param>>)

  /** `fn.name` where a string is expected: in a template or as a property key
      a missing name becomes "undefined". */
  function NameOf(e: Entry): string
  {
    match e.name
    case None => "undefined"
    case Some(n) => n
  }

  // ---------------------------------------------------------------------------
  // Descriptor filter

  /** `parsedABI.filter((fn) => fn.type === "function")`: keeps exactly the
      entries typed "function", and no others. */
  function FunctionsOf(entries: seq<Entry>): (r: seq<Entry>)
    ensures forall e :: e in r ==> e in entries && e.entryType == "function"
    ensures forall e :: e in entries && e.entryType == "function" ==> e in r
    ensures |r| <= |entries|
  {
    if entries == [] then []
    else (if entries[0].entryType == "function" then [entries[0]] else []) + FunctionsOf(entries[1..])
  }

  /** The filter works entry by entry, so it keeps the original order. */
  lemma {:induction false} FunctionsOfAppend(a: seq<Entry>, b: seq<Entry>)
    ensures FunctionsOf(a + b) == FunctionsOf(a) + FunctionsOf(b)
    decreases |a|
  {
    if a == [] {
      assert a + b == b;
    } else {
      assert (a + b)[1..] == a[1..] + b;
      FunctionsOfAppend(a[1..], b);
    }
  }

  /** A description made only of methods passes the filter unchanged. */
  lemma {:induction false} FunctionsOfOnlyFunctions(entries: seq<Entry>)
    requires forall i :: 0 <= i < |entries| ==> entries[i].entryType == "function"
    ensures FunctionsOf(entries) == entries
    decreases |entries|
  {
    if entries != [] {
      FunctionsOfOnlyFunctions(entries[1..]);
    }
  }

  // ---------------------------------------------------------------------------
  // Interface-text generator

  /** `Array.prototype.join(sep)`. */
  function Join(sep: string, xs: seq<string>): string
  {
    if |xs| == 0 then "" else if |xs| == 1 then xs[0] else xs[0] + sep + Join(sep, xs[1..])
  }

  /** Joining one more element appends the separator and that element. */
  lemma {:induction false} JoinSnoc(sep: string, xs: seq<string>, x: string)
    requires xs != []
    ensures Join(sep, xs + [x]) == Join(sep, xs) + sep + x
    decreases |xs|
  {
    if |xs| > 1 {
      assert (xs + [x])[1..] == xs[1..] + [x];
      JoinSnoc(sep, xs[1..], x);
    }
  }

  /** `${input.name}: ${input.type}` */
  function ParamText(p: Param): string
  {
    p.name + ": " + p.abiType
  }

  /** `fn.inputs?.map(...).join(", ")` inside a template: a missing `inputs`
      renders as "undefined". */
  function ParamsText(inputs: Option<seq<Param>>): string
  {
    match inputs
    case None => "undefined"
    case Some(ps) => Join(", ", seq(|ps|, i requires 0 <= i < |ps| => ParamText(ps[i])))
  }

  /** Parameters are listed in declared order: one more parameter adds ", "
      and its `name: type` at the end. */
  lemma {:induction false} ParamsInDeclaredOrder(ps: seq<Param>, p: Param)
    ensures ParamsText(Some(ps + [p])) ==
            if ps == [] then ParamText(p) else ParamsText(Some(ps)) + ", " + ParamText(p)
  {
    var texts := seq(|ps|, i requires 0 <= i < |ps| => ParamText(ps[i]));
    var all := ps + [p];
    assert seq(|all|, i requires 0 <= i < |all| => ParamText(all[i])) == texts + [ParamText(p)];
    if ps != [] {
      JoinSnoc(", ", texts, ParamText(p));
    }
  }

  /** One member of the generated interface. */
  function MethodLine(e: Entry): string
  {
    NameOf(e) + "(" + ParamsText(e.inputs) + "): Promise<any>;"
  }

  function MethodLines(methods: seq<Entry>): seq<string>
  {
    seq(|methods|, i requires 0 <= i < |methods| => MethodLine(methods[i]))
  }

  const InterfaceHeader := "interface ContractInterface {"

  /** generateInterfaceCode: the method lines, joined by "\n  ", inside the
      template "\ninterface ContractInterface {\n  ${...}\n}\n    ". */
  function InterfaceCode(methods: seq<Entry>): string
  {
    "\n" + InterfaceHeader + "\n" + "  " + Join("\n  ", MethodLines(methods)) + "\n" + "}" + "\n" + "    "
  }

  // ---------------------------------------------------------------------------
  // Reading the generated text back line by line

  /** `s.split("\n")`. */
  function Lines(s: string): (r: seq<string>)
    ensures |r| >= 1
  {
    if s == [] then [""]
    else if s[0] == '\n' then [""] + Lines(s[1..])
    else
      var rest := Lines(s[1..]);
      [[s[0]] + rest[0]] + rest[1..]
  }

  lemma {:induction false} LinesOfLine(a: string)
    requires '\n' !in a
    ensures Lines(a) == [a]
    decreases |a|
  {
    if a != [] {
      LinesOfLine(a[1..]);
      assert [a[0]] + a[1..] == a;
    }
  }

  lemma {:induction false} LinesAfterLine(a: string, b: string)
    requires '\n' !in a
    ensures Lines(a + "\n" + b) == [a] + Lines(b)
    decreases |a|
  {
    if a == [] {
      assert a + "\n" + b == "\n" + b;
      assert ("\n" + b)[1..] == b;
    } else {
      var s := a + "\n" + b;
      assert s[0] == a[0];
      assert s[1..] == a[1..] + "\n" + b;
      LinesAfterLine(a[1..], b);
      assert [a[0]] + a[1..] == a;
    }
  }

  lemma {:induction false} IndentedLines(xs: seq<string>, tail: string)
    requires xs != []
    requires forall i :: 0 <= i < |xs| ==> '\n' !in xs[i]
    ensures Lines("  " + Join("\n  ", xs) + "\n" + tail) ==
            seq(|xs|, i requires 0 <= i < |xs| => "  " + xs[i]) + Lines(tail)
    decreases |xs|
  {
    var indented := seq(|xs|, i requires 0 <= i < |xs| => "  " + xs[i]);
    if |xs| == 1 {
      assert "  " + Join("\n  ", xs) + "\n" + tail == ("  " + xs[0]) + "\n" + tail;
      LinesAfterLine("  " + xs[0], tail);
    } else {
      var rest := "  " + Join("\n  ", xs[1..]) + "\n" + tail;
      assert "  " + Join("\n  ", xs) + "\n" + tail == ("  " + xs[0]) + "\n" + rest;
      LinesAfterLine("  " + xs[0], rest);
      IndentedLines(xs[1..], tail);
      assert indented == ["  " + xs[0]] + seq(|xs[1..]|, i requires 0 <= i < |xs[1..]| => "  " + xs[1..][i]);
    }
  }

  /** The body lines of the generated interface: each method line indented by
      two spaces, or a single line of indentation when there are no methods. */
  function InterfaceBody(methods: seq<Entry>): seq<string>
  {
    if methods == [] then ["  "]
    else seq(|methods|, i requires 0 <= i < |methods| => "  " + MethodLine(methods[i]))
  }

  /** The lines the method list contributes to the generated interface. */
  lemma {:induction false} BodyLines(methods: seq<Entry>, tail: string)
    requires forall i :: 0 <= i < |methods| ==> '\n' !in MethodLine(methods[i])
    ensures Lines("  " + Join("\n  ", MethodLines(methods)) + "\n" + tail) ==
            InterfaceBody(methods)
            + Lines(tail)
  {
    if methods == [] {
      assert "  " + Join("\n  ", MethodLines(methods)) + "\n" + tail == "  " + "\n" + tail;
      LinesAfterLine("  ", tail);
    } else {
      IndentedLines(MethodLines(methods), tail);
    }
  }

  /** Lines of a text framed by a leading newline and a header line, with a
      trailer after the inner part. */
  lemma {:induction false} FramedLines(header: string, inner: string, innerLines: seq<string>,
                                       trailer: string, trailerLines: seq<string>)
    requires '\n' !in header
    requires Lines(trailer) == trailerLines
    requires Lines(inner + "\n" + trailer) == innerLines + Lines(trailer)
    ensures Lines("\n" + header + "\n" + inner + "\n" + trailer) == ["", header] + innerLines + trailerLines
  {
    var rest := inner + "\n" + trailer;
    assert "\n" + header + "\n" + inner + "\n" + trailer == "" + "\n" + (header + "\n" + rest);
    LinesAfterLine("", header + "\n" + rest);
    LinesAfterLine(header, rest);
  }

  lemma ClosingLines()
    ensures Lines("}" + "\n" + "    ") == ["}", "    "]
  {
    LinesAfterLine("}", "    ");
    LinesOfLine("    ");
  }

  /** The generated interface has one line per method, in list order, between
      the opening and closing lines; with no methods the body is one line of
      indentation alone. Method lines must not themselves contain a newline. */
  lemma {:induction false} InterfaceCodeLines(methods: seq<Entry>)
    requires forall i :: 0 <= i < |methods| ==> '\n' !in MethodLine(methods[i])
    ensures Lines(InterfaceCode(methods)) == ["", InterfaceHeader] + InterfaceBody(methods) + ["}", "    "]
  {
    var body := "  " + Join("\n  ", MethodLines(methods));
    var trailer := "}" + "\n" + "    ";
    assert InterfaceCode(methods) == "\n" + InterfaceHeader + "\n" + body + "\n" + trailer;
    assert '\n' !in InterfaceHeader;
    ClosingLines();
    BodyLines(methods, trailer);
    FramedLines(InterfaceHeader, body, InterfaceBody(methods), trailer, ["}", "    "]);
  }
}
