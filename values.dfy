/** The values a contract call can hand back to the console, the normaliser that
    turns bigints into decimal text (one array level deep), and JSON.stringify,
    which throws on any bigint left in its argument. */
module Values {
  import opened Outcomes

  /** A JavaScript value returned by a contract call, as far as the console
      inspects it. ethers' `Result` arrays are arrays. */
  datatype Value =
    | VBig(n: int)              // a bigint
    | VStr(s: string)           // a string (addresses and bytes arrive as hex strings)
    | VBool(b: bool)
    | VArr(items: seq<Value>)   // an array or tuple
    | VOther(json: string)      // any other value JSON.stringify accepts, with the text it produces

  // ---------------------------------------------------------------------------
  // Decimal text of a bigint

  predicate AllDigits(s: string)
  {
    forall i :: 0 <= i < |s| ==> '0' <= s[i] <= '9'
  }

  function DigitChar(d: nat): (c: char)
    requires d < 10
    ensures '0' <= c <= '9' && (c as int) - ('0' as int) == d
  {
    (('0' as int) + d) as char
  }

  /** The number a string of decimal digits denotes, most significant digit first. */
  function ParseNat(s: string): nat
    requires AllDigits(s)
  {
    if s == [] then 0 else ParseNat(s[..|s| - 1]) * 10 + ((s[|s| - 1] as int) - ('0' as int))
  }

  /** Reads back a decimal integer written with an optional leading '-'.
      This is the independent reader against which BigIntToString is checked. */
  function ParseDecimal(s: string): Option<int>
  {
    if |s| >= 2 && s[0] == '-' && AllDigits(s[1..]) then Some(-(ParseNat(s[1..]) as int))
    else if |s| >= 1 && AllDigits(s) then Some(ParseNat(s))
    else None
  }

  /** The decimal digits of n: never empty, no leading zero, and they read back as n. */
  function Digits(n: nat): (r: string)
    ensures |r| >= 1 && AllDigits(r)
    ensures |r| > 1 ==> r[0] != '0'
    ensures ParseNat(r) == n
    decreases n
  {
    if n < 10 then [DigitChar(n)]
    else
      var prefix := Digits(n / 10);
      var r := prefix + [DigitChar(n % 10)];
      assert r[..|r| - 1] == prefix;
      r
  }

  /** The text `bigint.toString()` writes: digits with no leading zero,
      optionally after one '-' that is followed by a non-zero digit. */
  predicate CanonicalDecimal(s: string)
  {
    if |s| >= 1 && s[0] == '-' then
      |s| >= 2 && AllDigits(s[1..]) && s[1] != '0'
    else
      |s| >= 1 && AllDigits(s) && (|s| > 1 ==> s[0] != '0')
  }

  /** `bigint.toString()`: the exact decimal text, with '-' for a negative value.
      It is lossless: the text reads back as the same integer. */
  function BigIntToString(n: int): (r: string)
    ensures ParseDecimal(r) == Some(n)
    ensures CanonicalDecimal(r)
    ensures |r| >= 1 && (r[0] == '-' <==> n < 0)
  {
    if n < 0 then
      var r := "-" + Digits(-n);
      assert r[1..] == Digits(-n);
      r
    else Digits(n)
  }

  // ---------------------------------------------------------------------------
  // The normaliser of a call result

  /** `typeof item === "bigint" ? item.toString() : item` */
  function BigToText(v: Value): Value
  {
    if v.VBig? then VStr(BigIntToString(v.n)) else v
  }

  /** The formatted result: an array is mapped element-wise with BigToText, one
      level deep; any other value goes through BigToText itself.
      No bigint is left at the top level or directly inside an array; each one
      that was there became a string reading back as the same integer; every
      other value, and every nested array, is kept as it was. */
  function Normalise(v: Value): (r: Value)
    ensures !r.VBig?
    ensures v.VBig? ==> r.VStr? && ParseDecimal(r.s) == Some(v.n) && CanonicalDecimal(r.s)
    ensures !v.VBig? && !v.VArr? ==> r == v
    ensures v.VArr? <==> r.VArr?
    ensures v.VArr? ==> |r.items| == |v.items|
    ensures v.VArr? ==> forall i :: 0 <= i < |v.items| ==> !r.items[i].VBig?
    ensures v.VArr? ==> forall i :: 0 <= i < |v.items| && v.items[i].VBig? ==>
              r.items[i].VStr? && ParseDecimal(r.items[i].s) == Some(v.items[i].n) && CanonicalDecimal(r.items[i].s)
    ensures v.VArr? ==> forall i :: 0 <= i < |v.items| && !v.items[i].VBig? ==> r.items[i] == v.items[i]
  {
    match v
    case VArr(items) => VArr(seq(|items|, i requires 0 <= i < |items| => BigToText(items[i])))
    case _ => BigToText(v)
  }

  /** Normalising a normalised value changes nothing. */
  lemma NormaliseIdempotent(v: Value)
    ensures Normalise(Normalise(v)) == Normalise(v)
  {
  }

  // ---------------------------------------------------------------------------
  // JSON.stringify

  /** The TypeError JSON.stringify throws on a bigint (V8's wording). */
  const BigIntNotSerialisable := Thrown("Do not know how to serialize a BigInt",
                                        "TypeError: Do not know how to serialize a BigInt")

  /** Whether a bigint occurs anywhere in v, at any depth. */
  predicate ContainsBigInt(v: Value)
    decreases v
  {
    match v
    case VBig(_) => true
    case VArr(items) => exists i :: 0 <= i < |items| && ContainsBigInt(items[i])
    case _ => false
  }

  function HexDigit(d: nat): char
    requires d < 16
  {
    "0123456789abcdef"[d]
  }

  /** How JSON.stringify writes one character inside a string literal. */
  function EscapeChar(c: char): string
  {
    if c == '"' then "\\\""
    else if c == '\\' then "\\\\"
    else if c == 8 as char then "\\b"
    else if c == '\t' then "\\t"
    else if c == '\n' then "\\n"
    else if c == 12 as char then "\\f"
    else if c == '\r' then "\\r"
    else if (c as int) < 0x20 then "\\u00" + [HexDigit((c as int) / 16), HexDigit((c as int) % 16)]
    else [c]
  }

  function Escape(s: string): string
  {
    if s == [] then "" else EscapeChar(s[0]) + Escape(s[1..])
  }

  /** JSON.stringify: throws BigIntNotSerialisable on the first bigint it meets. */
  function Serialise(v: Value): Outcome<string>
    decreases v
  {
    match v
    case VBig(_) => Err(BigIntNotSerialisable)
    case VStr(s) => Ok("\"" + Escape(s) + "\"")
    case VBool(b) => Ok(if b then "true" else "false")
    case VOther(json) => Ok(json)
    case VArr(items) =>
      match SerialiseItems(items)
      case Ok(body) => Ok("[" + body + "]")
      case Err(e) => Err(e)
  }

  /** The elements of an array, serialised and separated by ",". */
  function SerialiseItems(items: seq<Value>): Outcome<string>
    decreases items
  {
    if items == [] then Ok("")
    else
      match Serialise(items[0])
      case Err(e) => Err(e)
      case Ok(first) =>
        if |items| == 1 then Ok(first)
        else
          match SerialiseItems(items[1..])
          case Err(e) => Err(e)
          case Ok(rest) => Ok(first + "," + rest)
  }

  /** JSON.stringify fails exactly when a bigint occurs somewhere in its
      argument, and then with the bigint TypeError. */
  lemma {:induction false} SerialiseFailsOnBigInt(v: Value)
    ensures Serialise(v).Err? <==> ContainsBigInt(v)
    ensures Serialise(v).Err? ==> Serialise(v).error == BigIntNotSerialisable
    decreases v
  {
    match v
    case VArr(items) => SerialiseItemsFailsOnBigInt(items);
    case _ =>
  }

  lemma {:induction false} SerialiseItemsFailsOnBigInt(items: seq<Value>)
    ensures SerialiseItems(items).Err? <==> exists i :: 0 <= i < |items| && ContainsBigInt(items[i])
    ensures SerialiseItems(items).Err? ==> SerialiseItems(items).error == BigIntNotSerialisable
    decreases items
  {
    if items != [] {
      SerialiseFailsOnBigInt(items[0]);
      if |items| > 1 {
        SerialiseItemsFailsOnBigInt(items[1..]);
        forall i | 1 <= i < |items| ensures items[i] == items[1..][i - 1] { }
      }
    }
  }

  /** A bigint inside an array that is itself an element of the array v. */
  predicate HasNestedBigInt(v: Value)
  {
    v.VArr? && exists i :: 0 <= i < |v.items| && v.items[i].VArr? && ContainsBigInt(v.items[i])
  }

  /** What the normaliser leaves for JSON.stringify to fail on: a bigint inside
      an array that is itself inside the result. */
  lemma NormalisedContainsBigInt(v: Value)
    ensures ContainsBigInt(Normalise(v)) <==> HasNestedBigInt(v)
  {
  }
}
