/**
 * Vector features as the map's hit-testing hands them to the application.
 * Only what the application reads of a feature is modelled: its identifier
 * (`getId()`) and its identity as an object.
 */
module Features {

  import opened Wrappers

  /**
   * What `getId()` can return besides `undefined`: a string, or a number.
   * Feature ids in Mapbox vector tiles are unsigned integers, so numbers are
   * modelled as `nat`.
   */
  datatype FeatureId = StrId(s: string) | NumId(n: nat)

  /**
   * A feature: its optional identifier and a handle standing for object
   * identity, so that two distinct features may carry the same identifier.
   */
  datatype Feature = Feature(id: Option<FeatureId>, handle: nat)

  /** JavaScript truthiness of an identifier: `undefined`, `""` and `0` are falsy. */
  predicate Truthy(id: Option<FeatureId>)
  {
    match id
    case None => false
    case Some(StrId(s)) => s != ""
    case Some(NumId(n)) => n != 0
  }

  /** The falsy identifiers are exactly the three JavaScript treats so: absent, the empty string and zero. */
  lemma TruthyIsNotFalsy(id: Option<FeatureId>)
    ensures Truthy(id) <==> id.Some? && id.value != StrId("") && id.value != NumId(0)
  {
  }

  predicate IsDigit(c: char)
  {
    '0' <= c <= '9'
  }

  predicate AllDigits(s: string)
  {
    forall i :: 0 <= i < |s| ==> IsDigit(s[i])
  }

  function DigitChar(d: nat): (c: char)
    requires d < 10
    ensures IsDigit(c) && c as int - '0' as int == d
  {
    ('0' as int + d) as char
  }

  function DigitValue(c: char): (d: nat)
    requires IsDigit(c)
    ensures d < 10
  {
    c as int - '0' as int
  }

  /**
   * The decimal text of a number, as JavaScript's template-literal
   * conversion writes a non-negative integer: digits only, at least one,
   * and no leading zero unless the number is zero.
   */
  function DecimalText(n: nat): (r: string)
    ensures r != [] && AllDigits(r)
    ensures r[0] == '0' ==> n == 0
    ensures |r| > 1 ==> r[0] != '0'
    decreases n
  {
    if n < 10 then [DigitChar(n)] else DecimalText(n / 10) + [DigitChar(n % 10)]
  }

  /** Reads a string of decimal digits back as a number. */
  function ParseDecimal(s: string): (n: nat)
    requires AllDigits(s)
    decreases |s|
  {
    if s == [] then 0 else ParseDecimal(s[..|s| - 1]) * 10 + DigitValue(s[|s| - 1])
  }

  /** The decimal text loses nothing: reading it back yields the number. */
  lemma {:induction false} ParseDecimalText(n: nat)
    ensures ParseDecimal(DecimalText(n)) == n
    decreases n
  {
    var r := DecimalText(n);
    if n < 10 {
      assert r[..|r| - 1] == [];
    } else {
      var t := DecimalText(n / 10);
      assert r == t + [DigitChar(n % 10)];
      assert r[..|r| - 1] == t;
      ParseDecimalText(n / 10);
    }
  }

  /** `${id}`: the text an identifier becomes inside a template literal. */
  function IdText(id: FeatureId): (r: string)
    ensures id.StrId? ==> r == id.s
    ensures id.NumId? ==> AllDigits(r) && ParseDecimal(r) == id.n && r == DecimalText(id.n)
  {
    match id
    case StrId(s) => s
    case NumId(n) => ParseDecimalText(n); DecimalText(n)
  }
}
