/** ISO 4217 currency codes as the billing platform handles them
    (internal/types/currency.go): normalisation, case-insensitive comparison,
    precision and symbol lookup, and the database / JSON encodings.

    The ISO 4217 parser of golang.org/x/text/currency is a foreign library; it
    is given to the functions that call it as an `IsoRegistry`, the map from
    each code the parser accepts to the code's standard number of minor-unit
    digits (what `currency.Standard.Rounding` reports). */
module Currency {
  import opened Wrappers
  import opened Text

  /** `type Currency string`. */
  type Code = string

  /** Codes accepted by `currency.ParseISO`, with their minor-unit digits. */
  type IsoRegistry = map<string, nat>

  datatype CurrencyConfig = CurrencyConfig(precision: int, symbol: string)

  /** The error values the file constructs (all marked as validation errors). */
  datatype CurrencyError =
    | EmptyCode                      // "currency code cannot be empty"
    | InvalidCode(detail: string)    // "invalid currency code", reportable `currency_code`
    | InvalidType                    // "invalid type for currency" (Scan)
    | NotAJsonString                 // json.Unmarshal into a string failed

  const DefaultPrecision: int := 2

  /** `CURRENCY_CONFIG`, keyed by lower-case code. */
  const CurrencyTable: map<string, CurrencyConfig> := map[
    "usd" := CurrencyConfig(2, "$"),
    "eur" := CurrencyConfig(2, "\U{20AC}"),
    "gbp" := CurrencyConfig(2, "\U{00A3}"),
    "aud" := CurrencyConfig(2, "AUS"),
    "cad" := CurrencyConfig(2, "CAD"),
    "jpy" := CurrencyConfig(0, "\U{00A5}"),
    "inr" := CurrencyConfig(2, "\U{20B9}"),
    "idr" := CurrencyConfig(2, "Rp"),
    "sgd" := CurrencyConfig(2, "S$"),
    "thb" := CurrencyConfig(2, "\U{0E3F}"),
    "myr" := CurrencyConfig(2, "RM"),
    "php" := CurrencyConfig(2, "\U{20B1}"),
    "vnd" := CurrencyConfig(0, "\U{20AB}"),
    "hkd" := CurrencyConfig(2, "HK$"),
    "krw" := CurrencyConfig(0, "\U{20A9}"),
    "nzd" := CurrencyConfig(2, "NZ$"),
    "brl" := CurrencyConfig(2, "R$"),
    "chf" := CurrencyConfig(2, "CHF"),
    "clp" := CurrencyConfig(0, "CLP$"),
    "cny" := CurrencyConfig(2, "CN\U{00A5}"),
    "czk" := CurrencyConfig(2, "CZK"),
    "dkk" := CurrencyConfig(2, "DKK"),
    "huf" := CurrencyConfig(2, "HUF"),
    "ils" := CurrencyConfig(2, "\U{20AA}"),
    "mxn" := CurrencyConfig(2, "MX$"),
    "nok" := CurrencyConfig(2, "NOK"),
    "pln" := CurrencyConfig(2, "PLN"),
    "ron" := CurrencyConfig(2, "RON"),
    "rub" := CurrencyConfig(2, "\U{20BD}"),
    "sar" := CurrencyConfig(2, "SAR"),
    "sek" := CurrencyConfig(2, "SEK"),
    "try" := CurrencyConfig(2, "TRY"),
    "twd" := CurrencyConfig(2, "NT$"),
    "zar" := CurrencyConfig(2, "ZAR")
  ]

  /** The table's zero-decimal currencies. */
  const ZeroDecimalCodes: set<string> := {"jpy", "vnd", "krw", "clp"}

  /** `currency.ParseISO`: the digits of a recognised code, `None` for an error. */
  function ParseISO(reg: IsoRegistry, s: string): Option<nat> {
    if s in reg then Some(reg[s]) else None
  }

  // ---------------------------------------------------------------- lookups

  /** `GetCurrencyConfig`: the table entry of the lower-cased code, or precision
      2 with an empty symbol. */
  function GetCurrencyConfig(code: string): (r: CurrencyConfig)
    ensures ToLower(code) in CurrencyTable ==> r == CurrencyTable[ToLower(code)]
    ensures ToLower(code) !in CurrencyTable ==> r == CurrencyConfig(DefaultPrecision, "")
  {
    if ToLower(code) in CurrencyTable then CurrencyTable[ToLower(code)]
    else CurrencyConfig(DefaultPrecision, "")
  }

  /** `IsMatchingCurrency`: `strings.EqualFold`. */
  predicate IsMatchingCurrency(a: string, b: string) {
    EqualFold(a, b)
  }

  /** `Currency.String`: the upper-case code, untrimmed. */
  function String(c: Code): (r: string)
    ensures |r| == |c|
    ensures forall i :: 0 <= i < |r| ==> !IsAsciiLower(r[i])
    ensures EqualFold(r, c)
  {
    LowerOfUpper(c);
    ToUpper(c)
  }

  /** `Currency.Validate`: blank codes and codes the ISO parser rejects fail. */
  function Validate(reg: IsoRegistry, c: Code): (r: Option<CurrencyError>)
    ensures r == None <==> TrimSpace(c) != "" && ToUpper(TrimSpace(c)) in reg
    ensures TrimSpace(c) == "" ==> r == Some(EmptyCode)
    ensures TrimSpace(c) != "" && r != None ==> r == Some(InvalidCode(TrimSpace(c)))
  {
    var code := TrimSpace(c);
    if code == "" then Some(EmptyCode)
    else
      var normalized := ToUpper(code);
      if ParseISO(reg, normalized).None? then Some(InvalidCode(code)) else None
  }

  /** `Currency.IsValid`. */
  predicate IsValid(reg: IsoRegistry, c: Code) {
    Validate(reg, c) == None
  }

  /** `Currency.Precision`: 2 for a blank code; the ISO digits when the parser
      accepts the normalised code; otherwise the table entry, else 2. */
  function Precision(reg: IsoRegistry, c: Code): (r: int)
    ensures Normalize(c) == "" ==> r == DefaultPrecision
    ensures Normalize(c) != "" && Normalize(c) in reg ==> r == reg[Normalize(c)]
    ensures Normalize(c) != "" && Normalize(c) !in reg ==> r == GetCurrencyConfig(Normalize(c)).precision
  {
    var code := ToUpper(TrimSpace(c));
    if code == "" then DefaultPrecision
    else match ParseISO(reg, code)
      case None =>
        if ToLower(code) in CurrencyTable then CurrencyTable[ToLower(code)].precision
        else DefaultPrecision
      case Some(scale) => scale
  }

  /** `Currency.Symbol`: the table symbol of the trimmed code, matched without
      regard to case; otherwise the upper case of the raw, untrimmed code. */
  function Symbol(c: Code): (r: string)
    ensures ToLower(TrimSpace(c)) in CurrencyTable ==> r == CurrencyTable[ToLower(TrimSpace(c))].symbol
    ensures ToLower(TrimSpace(c)) !in CurrencyTable ==> r == String(c)
  {
    var code := ToLower(TrimSpace(c));
    if code in CurrencyTable then CurrencyTable[code].symbol else ToUpper(c)
  }

  /** `Currency.Normalize`: the trimmed, upper-cased code. */
  function Normalize(c: Code): (r: Code)
    ensures r == "" <==> forall i :: 0 <= i < |c| ==> IsGoSpace(c[i])
    ensures r == ToUpper(TrimSpace(c))
    ensures Trimmed(r, IsGoSpace)
    ensures forall i :: 0 <= i < |r| ==> !IsAsciiLower(r[i])
  {
    TrimEmptyIff(c, IsGoSpace);
    UpperTrimCommute(c);
    TrimShape(ToUpper(c), IsGoSpace);
    var code := TrimSpace(c);
    if code == "" then "" else ToUpper(code)
  }

  /** `Currency.Equal`: case-insensitive comparison of the raw codes. */
  predicate Equal(c: Code, other: Code) {
    EqualFold(c, other)
  }

  /** `NewCurrency`: fails on a blank code and on a code the ISO parser
      rejects, otherwise returns the trimmed upper-case code. */
  function NewCurrency(reg: IsoRegistry, code: string): (r: Result<Code, CurrencyError>)
    ensures TrimSpace(code) == "" ==> r == Err(EmptyCode)
    ensures TrimSpace(code) != "" && Normalize(code) !in reg ==> r == Err(InvalidCode(TrimSpace(code)))
    ensures r.Ok? <==> Normalize(code) != "" && Normalize(code) in reg
    ensures r.Ok? ==> r.value == Normalize(code)
  {
    var code' := TrimSpace(code);
    if code' == "" then Err(EmptyCode)
    else
      var normalized := ToUpper(code');
      if ParseISO(reg, normalized).None? then Err(InvalidCode(code'))
      else Ok(normalized)
  }

  /** `Currency.Value` (database encoding): the normalised code. */
  function Value(c: Code): (r: string)
    ensures r == Normalize(c)
  {
    var code := TrimSpace(c);
    if code == "" then "" else ToUpper(code)
  }

  /** `Currency.MarshalJSON`: the string that is JSON-encoded, which is the
      database encoding: the normalised code ("" for a blank one). */
  function MarshalJSON(c: Code): (r: string)
    ensures r == Normalize(c)
  {
    Value(c)
  }

  // ------------------------------------------------------ decoding (in place)

  /** What `Scan` receives from the database driver. A `[]byte` value is given
      by the text it holds. */
  datatype DbValue = DbNil | DbString(s: string) | DbBytes(text: string) | DbOther

  /** What `json.Unmarshal(data, &str)` sees: a JSON string, `null` (which
      leaves `str` empty without error), or anything else (an error). */
  datatype JsonInput = JsonString(s: string) | JsonNull | JsonNotString

  /** The value `Scan` stores, or its error. The ISO check inside `Scan` stores
      the same normalised value on both of its branches, so the outcome does not
      depend on the registry. */
  function Scanned(value: DbValue): (r: Result<Code, CurrencyError>)
    ensures value.DbOther? <==> r.Err?
    ensures r.Err? ==> r.error == InvalidType
    ensures value.DbNil? ==> r == Ok("")
    ensures value.DbString? ==> r == Ok(Normalize(value.s))
    ensures value.DbBytes? ==> r == Ok(Normalize(value.text))
  {
    match value
    case DbNil => Ok("")
    case DbString(s) => Ok(ToUpper(TrimSpace(s)))
    case DbBytes(t) => Ok(ToUpper(TrimSpace(t)))
    case DbOther => Err(InvalidType)
  }

  /** The value `UnmarshalJSON` stores, or its error. */
  function Unmarshalled(reg: IsoRegistry, data: JsonInput): (r: Result<Code, CurrencyError>)
    ensures data.JsonNotString? ==> r == Err(NotAJsonString)
    ensures data.JsonNull? ==> r == Ok("")
    ensures data.JsonString? && Normalize(data.s) == "" ==> r == Ok("")
    ensures data.JsonString? && Normalize(data.s) != "" ==>
              r == (if Normalize(data.s) in reg then Ok(Normalize(data.s)) else Err(InvalidCode(data.s)))
  {
    match data
    case JsonNotString => Err(NotAJsonString)
    case JsonNull => Ok("")
    case JsonString(str) =>
      var normalized := ToUpper(TrimSpace(str));
      if normalized == "" then Ok("")
      else if ParseISO(reg, normalized).None? then Err(InvalidCode(str))
      else Ok(normalized)
  }

  /** A `*Currency` target that `Scan` and `UnmarshalJSON` assign through. */
  class CurrencyVar {
    var code: Code

    constructor (c: Code)
      ensures code == c
    {
      code := c;
    }

    /** `(*Currency).Scan`: on success stores the decoded value; on error the
        target is left as it was. */
    method Scan(value: DbValue) returns (err: Option<CurrencyError>)
      modifies this
      ensures Scanned(value).Ok? ==> code == Scanned(value).value && err == None
      ensures Scanned(value).Err? ==> code == old(code) && err == Some(Scanned(value).error)
    {
      var str: string;
      match value {
        case DbNil =>
          code := "";
          return None;
        case DbString(v) => str := v;
        case DbBytes(v) => str := v;
        case DbOther => return Some(InvalidType);
      }
      var normalized := ToUpper(TrimSpace(str));
      if normalized == "" {
        code := "";
        return None;
      }
      // An invalid code is stored all the same, so that existing rows still load.
      code := normalized;
      return None;
    }

    /** `(*Currency).UnmarshalJSON`: like `Scan`, but a code the ISO parser
        rejects is an error and leaves the target unchanged. */
    method UnmarshalJSON(reg: IsoRegistry, data: JsonInput) returns (err: Option<CurrencyError>)
      modifies this
      ensures Unmarshalled(reg, data).Ok? ==> code == Unmarshalled(reg, data).value && err == None
      ensures Unmarshalled(reg, data).Err? ==> code == old(code) && err == Some(Unmarshalled(reg, data).error)
    {
      var str: string;
      match data {
        case JsonNotString => return Some(NotAJsonString);
        case JsonNull => str := "";
        case JsonString(s) => str := s;
      }
      var normalized := ToUpper(TrimSpace(str));
      if normalized == "" {
        code := "";
        return None;
      }
      if ParseISO(reg, normalized).None? {
        return Some(InvalidCode(str));
      }
      code := normalized;
      return None;
    }
  }

  // ----------------------------------------------------------------- lemmas

  /** Normalising twice is normalising once. */
  lemma NormalizeIdempotent(c: Code)
    ensures Normalize(Normalize(c)) == Normalize(c)
  {
    var t := TrimSpace(c);
    TrimIdempotent(c, IsGoSpace);
    UpperTrimCommute(t);
    UpperIdempotent(t);
  }

  /** A normalised code is its own normal form. */
  lemma NormalizeFixpoint(c: Code)
    requires Trimmed(c, IsGoSpace)
    requires forall i :: 0 <= i < |c| ==> !IsAsciiLower(c[i])
    ensures Normalize(c) == c
  {
    TrimOfTrimmed(c, IsGoSpace);
  }

  /** `Equal` and `IsMatchingCurrency` are the same relation, it ignores case,
      and it is reflexive, symmetric and transitive. */
  lemma EqualIsCaseInsensitiveEquivalence(a: Code, b: Code, c: Code)
    ensures Equal(a, b) <==> IsMatchingCurrency(a, b)
    ensures Equal(a, b) <==> ToUpper(a) == ToUpper(b)
    ensures Equal(a, a)
    ensures Equal(a, b) <==> Equal(b, a)
    ensures Equal(a, b) && Equal(b, c) ==> Equal(a, c)
  {
    EqualFoldByUpper(a, b);
  }

  /** Codes that compare equal have the same normal form. */
  lemma EqualCodesNormalizeAlike(a: Code, b: Code)
    requires Equal(a, b)
    ensures Normalize(a) == Normalize(b)
  {
    UpperTrimOfEqual(a, b);
  }

  lemma UpperTrimOfEqual(a: Code, b: Code)
    requires Equal(a, b)
    ensures ToUpper(TrimSpace(a)) == ToUpper(TrimSpace(b))
  {
    SameSpacesWhenEqual(a, b);
    TrimSameBounds(a, b, IsGoSpace);
    var lo := LeadingCount(a, IsGoSpace);
    var hi := lo + |TrimSpace(a)|;
    UpperOfEqualFoldSlices(a, b, lo, hi);
    UpperOfEqualArguments(TrimSpace(a), a[lo..hi], TrimSpace(b), b[lo..hi]);
  }

  lemma UpperOfEqualArguments(x: string, x': string, y: string, y': string)
    requires x == x' && y == y' && ToUpper(x') == ToUpper(y')
    ensures ToUpper(x) == ToUpper(y)
  {
  }

  lemma SameSpacesWhenEqual(a: Code, b: Code)
    requires Equal(a, b)
    ensures |a| == |b|
    ensures forall i :: 0 <= i < |a| ==> (IsGoSpace(a[i]) <==> IsGoSpace(b[i]))
  {
    var la, lb := ToLower(a), ToLower(b);
    forall i | 0 <= i < |a| ensures IsGoSpace(a[i]) <==> IsGoSpace(b[i]) {
      assert la[i] == lb[i];
    }
  }

  lemma UpperOfEqualFoldSlices(a: Code, b: Code, lo: nat, hi: nat)
    requires Equal(a, b) && lo <= hi <= |a|
    ensures ToUpper(a[lo..hi]) == ToUpper(b[lo..hi])
  {
    assert ToLower(a)[lo..hi] == ToLower(b)[lo..hi];
    forall i | lo <= i < hi ensures UpperChar(a[i]) == UpperChar(b[i]) {
      assert ToLower(a)[i] == ToLower(b)[i];
    }
  }

  /** The configuration lookup ignores case. */
  lemma GetCurrencyConfigIgnoresCase(a: string, b: string)
    requires IsMatchingCurrency(a, b)
    ensures GetCurrencyConfig(a) == GetCurrencyConfig(b)
  {
  }

  /** Every table entry has precision 0 for the zero-decimal currencies and 2
      for the rest. */
  lemma TablePrecisions(k: string)
    requires k in CurrencyTable
    ensures CurrencyTable[k].precision == (if k in ZeroDecimalCodes then 0 else 2)
  {
  }

  /** The precision of a code the ISO parser rejects, by the table. */
  lemma PrecisionFallback(reg: IsoRegistry, c: Code)
    requires Normalize(c) != "" && Normalize(c) !in reg
    ensures ToLower(Normalize(c)) in ZeroDecimalCodes ==> Precision(reg, c) == 0
    ensures ToLower(Normalize(c)) !in ZeroDecimalCodes ==> Precision(reg, c) == DefaultPrecision
  {
    var k := ToLower(Normalize(c));
    if k in CurrencyTable {
      TablePrecisions(k);
    }
  }

  /** `NewCurrency` succeeds exactly on the codes `Validate` accepts, and what
      it returns is a normal form that `Validate` accepts again. */
  lemma NewCurrencyAgreesWithValidate(reg: IsoRegistry, code: string)
    ensures NewCurrency(reg, code).Ok? <==> IsValid(reg, code)
    ensures NewCurrency(reg, code).Ok? ==>
              var v := NewCurrency(reg, code).value;
              IsValid(reg, v) && Normalize(v) == v && Equal(v, TrimSpace(code))
  {
    if NewCurrency(reg, code).Ok? {
      var v := NewCurrency(reg, code).value;
      NormalizeIdempotent(code);
      assert TrimSpace(v) == v by { TrimOfTrimmed(v, IsGoSpace); }
      UpperIdempotent(TrimSpace(code));
      LowerOfUpper(TrimSpace(code));
    }
  }

  /** What `Value` writes, `Scan` reads back as the same normal form. */
  lemma ValueScanRoundTrip(c: Code)
    ensures Scanned(DbString(Value(c))) == Ok(Normalize(c))
    ensures Scanned(DbBytes(Value(c))) == Ok(Normalize(c))
  {
    NormalizeIdempotent(c);
  }

  /** What `MarshalJSON` emits for a valid or blank code, `UnmarshalJSON`
      reads back as the same normal form; an invalid code is rejected. */
  lemma MarshalUnmarshalRoundTrip(reg: IsoRegistry, c: Code)
    ensures IsValid(reg, c) || Normalize(c) == "" ==> Unmarshalled(reg, JsonString(MarshalJSON(c))) == Ok(Normalize(c))
    ensures !IsValid(reg, c) && Normalize(c) != "" ==> Unmarshalled(reg, JsonString(MarshalJSON(c))).Err?
  {
    NormalizeIdempotent(c);
  }

  /** On the same input `Scan` and `UnmarshalJSON` store the same code,
      except that `UnmarshalJSON` rejects a code the ISO parser does not know. */
  lemma ScanIsLenientUnmarshal(reg: IsoRegistry, s: string)
    ensures Unmarshalled(reg, JsonString(s)).Ok? ==> Unmarshalled(reg, JsonString(s)) == Scanned(DbString(s))
    ensures Unmarshalled(reg, JsonString(s)).Err? <==> Normalize(s) != "" && Normalize(s) !in reg
  {
  }
}
