/**
  Chain identifiers: a one-byte id, a registry of five reserved names,
  the string parser used in configuration files and CLI arguments, the
  conversion from a configuration integer, and the display form.
*/
module ChainIds {
  import opened Wrappers

  /** The reserved chains; a chain's numeric id is its declaration position. */
  datatype NamedChain = MAINNET | PREMAINNET | TESTNET | DEVNET | TESTING

  /** `NamedChain::id`, the `#[repr(u8)]` discriminant of the variant. */
  function NamedChainId(c: NamedChain): (id: u8)
    ensures id < 5  // one id per reserved chain, counted from 0
  {
    match c
    case MAINNET => 0
    case PREMAINNET => 1
    case TESTNET => 2
    case DEVNET => 3
    case TESTING => 4
  }

  /** The exact string that `str_to_chain_id` accepts for each reserved chain. */
  function ReservedName(c: NamedChain): string
  {
    match c
    case MAINNET => "MAINNET"
    case PREMAINNET => "PREMAINNET"
    case TESTNET => "TESTNET"
    case DEVNET => "DEVNET"
    case TESTING => "TESTING"
  }

  /** The one-byte chain id newtype. */
  datatype ChainId = ChainId(value: u8)

  datatype ChainIdError =
    | NotAReservedChain(name: string)  // from `str_to_chain_id`
    | ParseIntError                    // from `str::parse::<u8>`
    | TryFromIntError                  // from `u8::try_from(u64)`

  /** `ChainId::new` */
  function New(id: u8): (c: ChainId)
    ensures Id(c) == id
  {
    ChainId(id)
  }

  /** `ChainId::id` */
  function Id(c: ChainId): (id: u8)
    ensures c == ChainId(id)
  {
    c.value
  }

  /** `ChainId::test`: the id of the TESTING chain. */
  function Test(): (c: ChainId)
    ensures Id(c) == 4
  {
    New(NamedChainId(TESTING))
  }

  /** `impl Default for ChainId` */
  function Default(): (c: ChainId)
    ensures c == New(4)
    ensures Id(c) == NamedChainId(TESTING)
  {
    Test()
  }

  /** `NamedChain::str_to_chain_id`: exact, case-sensitive match of the five names. */
  function StrToChainId(s: string): (r: Result<ChainId, ChainIdError>)
    ensures r.Ok? ==> exists c :: ReservedName(c) == s && r.value == New(NamedChainId(c))
    ensures r.Err? ==> r.error == NotAReservedChain(s)
  {
    var reserved: Option<NamedChain> :=
      match s
      case "MAINNET" => Some(MAINNET)
      case "PREMAINNET" => Some(PREMAINNET)
      case "TESTNET" => Some(TESTNET)
      case "DEVNET" => Some(DEVNET)
      case "TESTING" => Some(TESTING)
      case _ => None;
    if reserved.None? then Err(NotAReservedChain(s))
    else
      assert ReservedName(reserved.value) == s;
      Ok(New(NamedChainId(reserved.value)))
  }

  /* ---------------------------------------------------------------------
     Decimal digits: Rust's `u8` parser, and a reference value of a digit string.
     --------------------------------------------------------------------- */

  predicate IsAsciiDigit(ch: char)
  {
    '0' <= ch <= '9'
  }

  predicate AllDigits(ds: string)
  {
    forall i :: 0 <= i < |ds| ==> IsAsciiDigit(ds[i])
  }

  function DigitValue(ch: char): nat
    requires IsAsciiDigit(ch)
  {
    ch as int - '0' as int
  }

  function DigitChar(d: nat): (ch: char)
    requires d < 10
    ensures IsAsciiDigit(ch) && DigitValue(ch) == d
  {
    (d + '0' as int) as char
  }

  /** The value of a digit string, read most-significant digit first (reference definition). */
  function DecimalValue(ds: string): nat
    requires AllDigits(ds)
  {
    if |ds| == 0 then 0
    else 10 * DecimalValue(ds[..|ds| - 1]) + DigitValue(ds[|ds| - 1])
  }

  /** The digits after the optional leading `+` that Rust's unsigned parser accepts. */
  function UnsignedDigits(s: string): string
  {
    if |s| > 0 && s[0] == '+' then s[1..] else s
  }

  /**
    Rust's digit loop for `u8`: left to right, each character must be an ASCII digit,
    and `acc * 10 + d` is computed with `checked_mul` and then `checked_add`.
  */
  function AccumulateDigits(acc: u8, ds: string): (r: Option<u8>)
    ensures r.Some? ==> AllDigits(ds)
    decreases |ds|
  {
    if |ds| == 0 then Some(acc)
    else if !IsAsciiDigit(ds[0]) then None
    else if acc * 10 >= 0x100 then None
    else if acc * 10 + DigitValue(ds[0]) >= 0x100 then None
    else AccumulateDigits(acc * 10 + DigitValue(ds[0]), ds[1..])
  }

  /** `s.parse::<u8>()`: an optional `+`, then at least one decimal digit, value at most 255. */
  function ParseU8(s: string): (r: Option<u8>)
    ensures r.Some? ==> |UnsignedDigits(s)| > 0 && AllDigits(UnsignedDigits(s))
  {
    var ds := UnsignedDigits(s);
    if |ds| == 0 then None else AccumulateDigits(0, ds)
  }

  /** Rust's decimal rendering of an unsigned integer (`Display` and `Debug` agree for `u8`). */
  function DecimalString(n: nat): (s: string)
    ensures |s| > 0 && AllDigits(s)
    ensures s[0] == '0' <==> n == 0
    ensures |s| == 1 || s[0] != '0'  // canonical: no leading zero
  {
    if n < 10 then [DigitChar(n)] else DecimalString(n / 10) + [DigitChar(n % 10)]
  }

  /** `impl FromStr for ChainId`: a reserved name first, otherwise a decimal `u8`. */
  function FromStr(s: string): (r: Result<ChainId, ChainIdError>)
    requires |s| > 0  // `assert!(!s.is_empty())`
    ensures r.Err? <==> StrToChainId(s).Err? && ParseU8(s).None?
    ensures r.Err? ==> r.error == ParseIntError  // the name lookup's error is discarded
  {
    match StrToChainId(s)
    case Ok(c) => Ok(c)
    case Err(_) =>
      match ParseU8(s)
      case Some(v) => Ok(New(v))
      case None => Err(ParseIntError)
  }

  /** `impl Display for ChainId`: "ChainId " followed by the decimal id. */
  function Display(c: ChainId): (s: string)
    ensures |s| > 8 && s[..8] == "ChainId " && AllDigits(s[8..])
  {
    "ChainId " + DecimalString(Id(c))
  }

  /** `ChainIdVisitor::visit_str` in `deserialize_config_chain_id`. */
  function VisitStr(s: string): (r: Result<ChainId, ChainIdError>)
    requires |s| > 0
    ensures ParseU8(s).Some? ==> r.Ok?
    ensures r.Err? ==> r.error == ParseIntError
  {
    FromStr(s)
  }

  /** `ChainIdVisitor::visit_u64`: the narrowing `u8::try_from(value)`. */
  function VisitU64(n: u64): (r: Result<ChainId, ChainIdError>)
    ensures r.Ok? <==> n < 0x100
    ensures r.Ok? ==> Id(r.value) == n
    ensures r.Err? ==> r.error == TryFromIntError
  {
    if n < 0x100 then Ok(New(n)) else Err(TryFromIntError)
  }

  /* ---------------------------------------------------------------------
     Properties
     --------------------------------------------------------------------- */

  /** The reserved ids follow declaration order and are pairwise distinct. */
  lemma NamedChainIdsInDeclarationOrder(a: NamedChain, b: NamedChain)
    ensures NamedChainId(MAINNET) == 0 && NamedChainId(PREMAINNET) == 1 && NamedChainId(TESTNET) == 2
    ensures NamedChainId(DEVNET) == 3 && NamedChainId(TESTING) == 4
    ensures NamedChainId(a) == NamedChainId(b) <==> a == b
  {
  }

  /** `ChainId::new(x).id() == x` and ids determine chain ids. */
  lemma NewIdRoundTrip(x: u8, c: ChainId)
    ensures Id(New(x)) == x
    ensures New(Id(c)) == c
  {
  }

  /** `str_to_chain_id` succeeds exactly on the five reserved names, yielding each one's id. */
  lemma StrToChainIdExact(s: string)
    ensures StrToChainId(s).Ok? <==> exists c :: ReservedName(c) == s
    ensures forall c :: ReservedName(c) == s ==> StrToChainId(s) == Ok(New(NamedChainId(c)))
    ensures StrToChainId(s).Err? ==> StrToChainId(s).error == NotAReservedChain(s)
  {
    if StrToChainId(s).Ok? {
      var c :| c in {MAINNET, PREMAINNET, TESTNET, DEVNET, TESTING} && ReservedName(c) == s;
    }
  }

  /** A reserved name starts with an upper-case letter, so no reserved name parses as a number. */
  lemma ReservedNamesAreNotNumbers(c: NamedChain)
    ensures |ReservedName(c)| > 0 && 'A' <= ReservedName(c)[0] <= 'Z'
    ensures ParseU8(ReservedName(c)).None?
  {
  }

  /** Appending one digit multiplies the value by ten and adds the digit. */
  lemma DecimalValueAppend(ds: string, ch: char)
    requires AllDigits(ds) && IsAsciiDigit(ch)
    ensures AllDigits(ds + [ch])
    ensures DecimalValue(ds + [ch]) == 10 * DecimalValue(ds) + DigitValue(ch)
  {
    assert (ds + [ch])[..|ds|] == ds;
  }

  /** Extending a digit string never lowers its value. */
  lemma {:induction false} DecimalValueMonotone(p: string, q: string)
    requires AllDigits(p) && AllDigits(q)
    ensures AllDigits(p + q) && DecimalValue(p) <= DecimalValue(p + q)
    decreases |q|
  {
    assert AllDigits(p + q);
    if |q| > 0 {
      var q' := q[..|q| - 1];
      DecimalValueMonotone(p, q');
      assert (p + q')  + [q[|q| - 1]] == p + q;
      DecimalValueAppend(p + q', q[|q| - 1]);
    } else {
      assert p + q == p;
    }
  }

  /**
    The checked digit loop, started on the value of an already-read prefix `p`, yields
    the value of the whole string when every character is a digit and that value fits
    a `u8`, and fails otherwise.
  */
  lemma {:induction false} AccumulateDigitsIsDecimalValue(p: string, ds: string)
    requires AllDigits(p) && DecimalValue(p) < 0x100
    ensures AccumulateDigits(DecimalValue(p), ds) ==
      if AllDigits(ds) && DecimalValue(p + ds) < 0x100 then Some(DecimalValue(p + ds)) else None
    decreases |ds|
  {
    if |ds| == 0 {
      assert p + ds == p;
    } else if !IsAsciiDigit(ds[0]) {
      assert !AllDigits(ds);
    } else {
      var p' := p + [ds[0]];
      DecimalValueAppend(p, ds[0]);
      assert p' + ds[1..] == p + ds;
      assert AllDigits(ds) <==> AllDigits(ds[1..]) by {
        if AllDigits(ds[1..]) {
          forall i | 0 <= i < |ds| ensures IsAsciiDigit(ds[i]) {
            if i > 0 { assert ds[i] == ds[1..][i - 1]; }
          }
        }
      }
      if DecimalValue(p') >= 0x100 {
        if AllDigits(ds[1..]) {
          DecimalValueMonotone(p', ds[1..]);
        }
      } else {
        AccumulateDigitsIsDecimalValue(p', ds[1..]);
      }
    }
  }

  /** `parse::<u8>` accepts exactly an optional `+` followed by digits whose value is at most 255. */
  lemma ParseU8Exact(s: string)
    ensures ParseU8(s) ==
      var ds := UnsignedDigits(s);
      if |ds| > 0 && AllDigits(ds) && DecimalValue(ds) < 0x100 then Some(DecimalValue(ds)) else None
  {
    var ds := UnsignedDigits(s);
    if |ds| > 0 {
      AccumulateDigitsIsDecimalValue([], ds);
      assert [] + ds == ds;
    }
  }

  /** The decimal rendering reads back as the same number. */
  lemma {:induction false} DecimalStringValue(n: nat)
    ensures DecimalValue(DecimalString(n)) == n
  {
    if n >= 10 {
      DecimalStringValue(n / 10);
      DecimalValueAppend(DecimalString(n / 10), DigitChar(n % 10));
    }
  }

  /** Parsing the decimal rendering of any byte gives the byte back. */
  lemma ParseU8DecimalString(x: u8)
    ensures ParseU8(DecimalString(x)) == Some(x)
  {
    var s := DecimalString(x);
    assert s[0] != '+' by { assert IsAsciiDigit(s[0]); }
    ParseU8Exact(s);
    DecimalStringValue(x);
  }

  /**
    `from_str` yields the reserved chain's id for a reserved name, otherwise the parsed
    decimal `u8`, and fails only when the string is neither.
  */
  lemma FromStrExact(s: string)
    requires |s| > 0
    ensures forall c :: ReservedName(c) == s ==> FromStr(s) == Ok(New(NamedChainId(c)))
    ensures (forall c :: ReservedName(c) != s) ==>
      FromStr(s) == match ParseU8(s) case Some(v) => Ok(New(v)) case None => Err(ParseIntError)
    ensures FromStr(s).Ok? <==> (exists c :: ReservedName(c) == s) || ParseU8(s).Some?
  {
    StrToChainIdExact(s);
  }

  /** Every chain id is reached by `from_str` of its decimal form; reserved names and numbers agree. */
  lemma FromStrDecimalRoundTrip(c: ChainId, n: NamedChain)
    ensures FromStr(DecimalString(Id(c))) == Ok(c)
    ensures FromStr(ReservedName(n)) == FromStr(DecimalString(NamedChainId(n)))
  {
    var ds := DecimalString(Id(c));
    forall m ensures ReservedName(m) != ds {
      ReservedNamesAreNotNumbers(m);
    }
    ParseU8DecimalString(Id(c));
    FromStrExact(ds);
    var dn := DecimalString(NamedChainId(n));
    forall m ensures ReservedName(m) != dn {
      ReservedNamesAreNotNumbers(m);
    }
    ParseU8DecimalString(NamedChainId(n));
    FromStrExact(dn);
    FromStrExact(ReservedName(n));
  }

  /** `Default` is the TESTING chain, which `from_str("TESTING")` also names. */
  lemma DefaultIsTesting()
    ensures Default() == Test() == New(4)
    ensures FromStr("TESTING") == Ok(Default())
  {
  }

  /** `Display` writes "ChainId " and then a decimal that parses back to the id. */
  lemma DisplayRoundTrip(c: ChainId)
    ensures |Display(c)| > 8 && Display(c)[..8] == "ChainId "
    ensures FromStr(Display(c)[8..]) == Ok(c)
  {
    assert Display(c)[8..] == DecimalString(Id(c));
    FromStrDecimalRoundTrip(c, TESTING);
  }

  /** The visitor's integer path succeeds exactly for values that fit a `u8`, keeping the value. */
  lemma VisitU64Exact(n: u64, c: ChainId)
    ensures VisitU64(n).Ok? <==> n <= 255
    ensures VisitU64(n).Ok? ==> Id(VisitU64(n).value) == n
    ensures VisitU64(Id(c)) == Ok(c)
  {
  }

  /** The visitor's string path is `from_str`, so a decimal id read as a string or as an integer agrees. */
  lemma VisitStrAgreesWithVisitU64(c: ChainId)
    ensures VisitStr(DecimalString(Id(c))) == VisitU64(Id(c)) == Ok(c)
  {
    FromStrDecimalRoundTrip(c, TESTING);
  }
}
