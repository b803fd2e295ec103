/**
 * JavaScript values as the handlers see them after JSON parsing, and the few
 * operators the handlers apply to them: property access, truthiness, `||`,
 * SQL `COALESCE`, and the decimal rendering used to mint ids from a clock.
 * Floating-point numbers are modelled as integers.
 */
module Json {
  import opened Wrappers

  datatype Value = Undefined | Null | Bool(b: bool) | Num(n: int) | Str(s: string)

  /** A parsed JSON object: field name to value. */
  type Payload = map<string, Value>

  /** Property access `p.k`; an absent field reads as `undefined`. */
  function Field(p: Payload, k: string): Value {
    if k in p then p[k] else Undefined
  }

  /** JavaScript truthiness (NaN does not arise: numbers are integers here). */
  predicate Truthy(v: Value) {
    match v
    case Undefined => false
    case Null => false
    case Bool(b) => b
    case Num(n) => n != 0
    case Str(s) => s != ""
  }

  /** JavaScript `a || b`. */
  function Or(a: Value, b: Value): (r: Value)
    ensures Truthy(a) ==> r == a
    ensures !Truthy(a) ==> r == b
    ensures Truthy(r) <==> Truthy(a) || Truthy(b)
    ensures r == a || r == b
  {
    if Truthy(a) then a else b
  }

  /** How a driver binds a parameter: `undefined` becomes SQL NULL. */
  function Bind(v: Value): (r: Value)
    ensures r != Undefined
    ensures v != Undefined ==> r == v
    ensures r == Null <==> v == Undefined || v == Null
    ensures Truthy(r) <==> Truthy(v)
  {
    if v == Undefined then Null else v
  }

  /** SQL `COALESCE($n, column)` after binding: the old column value survives
      exactly when the new value is absent or null. */
  function Coalesce(given: Value, column: Value): (r: Value)
    ensures given == Undefined || given == Null ==> r == column
    ensures given != Undefined && given != Null ==> r == given
  {
    if Bind(given) == Null then column else given
  }

  /** A value bound as a parameter against a TEXT key column: strings compare
      as themselves; everything else is taken to match no key. */
  function SqlText(v: Value): Option<string> {
    if v.Str? then Some(v.s) else None
  }

  function DigitChar(d: nat): (c: char)
    requires d < 10
    ensures '0' <= c <= '9'
  {
    ('0' as int + d) as char
  }

  /** The decimal rendering of a natural number, as `String(n)` produces it. */
  function NatToString(n: nat): (s: string)
    ensures |s| >= 1
    ensures forall i :: 0 <= i < |s| ==> '0' <= s[i] <= '9'
    ensures n < 10 <==> |s| == 1
    decreases n
  {
    if n < 10 then [DigitChar(n)] else NatToString(n / 10) + [DigitChar(n % 10)]
  }

  /** Distinct numbers have distinct renderings. */
  lemma {:induction false} NatToStringInjective(a: nat, b: nat)
    requires NatToString(a) == NatToString(b)
    ensures a == b
    decreases a
  {
    var s := NatToString(a);
    if a < 10 {
      assert s == [DigitChar(a)];
      assert NatToString(b) == [DigitChar(b)];
    } else {
      assert b >= 10;
      var pa, pb := NatToString(a / 10), NatToString(b / 10);
      assert s == pa + [DigitChar(a % 10)];
      assert s == pb + [DigitChar(b % 10)];
      assert s[|s| - 1] == DigitChar(a % 10) == DigitChar(b % 10);
      assert pa == s[..|s| - 1] == pb;
      NatToStringInjective(a / 10, b / 10);
    }
  }

  /** An id minted from the clock, `prefix + Date.now()`. */
  function MintId(prefix: string, now: nat): (id: string)
    ensures |id| > |prefix| && id[..|prefix|] == prefix
  {
    prefix + NatToString(now)
  }

  /** Two ids minted with the same prefix at different instants differ, and ids
      minted at the same instant coincide (so two creates in one millisecond
      collide). */
  lemma MintIdInjective(prefix: string, a: nat, b: nat)
    ensures MintId(prefix, a) == MintId(prefix, b) <==> a == b
  {
    if MintId(prefix, a) == MintId(prefix, b) {
      assert NatToString(a) == MintId(prefix, a)[|prefix|..];
      assert NatToString(b) == MintId(prefix, b)[|prefix|..];
      NatToStringInjective(a, b);
    }
  }
}
