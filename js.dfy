/** The pieces of JavaScript run-time behaviour the Ubiquity clients rely on:
    values as the TypeScript code sees them at run time, truthiness, the string
    conversion done by template literals, property reads, and
    `String.prototype.replace` with a string pattern. */
module Js {

  datatype Option<+T> = None | Some(value: T)

  datatype Result<+R, +E> = Ok(value: R) | Err(error: E)

  /** Everything the modelled code can throw or reject with. */
  datatype Error =
    | TypeError                                   // property read on undefined/null, `in` on a primitive
    | SyntaxError                                 // Response.json() on a body that is not JSON
    | NetworkError                                // the v2 executors' catch-all
    | ApiError(status: int)                       // a non-ok response kept with its status
    | FetchRejected                               // fetch's own rejection, passed through untouched
    | InvalidRequest                              // v1 admin: Error('Invalid ubiquity request')
    | UbiquityError(message: string, status: int) // v1 app-user client error object
    | AppUndefined                                // ContentItemApi constructor guard
    | UrlNotFound                                 // Ubiquity.getUrl without a URL
    | TokenUnreadable                             // the JWT payload could not be decoded

  /** A JavaScript value. Numbers are integers; objects are their own
      enumerable properties (a key mapped to Undefined is present with the
      value undefined, as in `{categories: undefined}`). */
  datatype Value =
    | Undefined
    | Null
    | Bool(b: bool)
    | Num(n: int)
    | Str(s: string)
    | Arr(elems: seq<Value>)
    | Obj(props: map<string, Value>)

  /** `Boolean(v)`. */
  predicate Truthy(v: Value) {
    match v
    case Undefined => false
    case Null => false
    case Bool(b) => b
    case Num(n) => n != 0
    case Str(s) => s != ""
    case Arr(_) => true
    case Obj(_) => true
  }

  /** `Boolean(s)` for an optional string option such as `apiKey?: string`. */
  predicate TruthyText(o: Option<string>) {
    o.Some? && o.value != ""
  }

  /** `${s}` for a `string | undefined`. */
  function OptText(o: Option<string>): string {
    if o.Some? then o.value else "undefined"
  }

  predicate IsDigit(c: char) {
    '0' <= c <= '9'
  }

  function DigitChar(d: nat): (c: char)
    requires d < 10
    ensures IsDigit(c) && c as int - '0' as int == d
  {
    ('0' as int + d) as char
  }

  /** Decimal digits of a natural number, as Number.prototype.toString gives them. */
  function NatToDecimal(n: nat): (s: string)
    ensures |s| > 0
    ensures forall i :: 0 <= i < |s| ==> IsDigit(s[i])
    decreases n
  {
    if n < 10 then [DigitChar(n)] else NatToDecimal(n / 10) + [DigitChar(n % 10)]
  }

  /** The number a string of decimal digits denotes. */
  function DecimalValue(s: string): nat
    requires forall i :: 0 <= i < |s| ==> IsDigit(s[i])
  {
    if s == [] then 0
    else
      assert IsDigit(s[|s| - 1]);
      DecimalValue(s[..|s| - 1]) * 10 + (s[|s| - 1] as int - '0' as int)
  }

  /** Reading the decimal text back gives the number: the conversion loses nothing. */
  lemma {:induction false} DecimalRoundTrip(n: nat)
    ensures DecimalValue(NatToDecimal(n)) == n
  {
    if n >= 10 {
      DecimalRoundTrip(n / 10);
      var s := NatToDecimal(n);
      assert s[..|s| - 1] == NatToDecimal(n / 10);
    }
  }

  /** `String(n)` for an integer-valued number. */
  function IntToDecimal(n: int): (s: string)
    ensures n >= 0 ==> s == NatToDecimal(n)
    ensures n < 0 ==> s == "-" + NatToDecimal(-n)
    ensures |s| > 0 && (s[0] == '-' <==> n < 0)
  {
    if n < 0 then "-" + NatToDecimal(-n) else NatToDecimal(n)
  }

  /** Different integers print differently, so a numeric id's text
      identifies it. */
  lemma {:induction false} IntToDecimalInjective(m: int, n: int)
    ensures IntToDecimal(m) == IntToDecimal(n) ==> m == n
  {
    if IntToDecimal(m) == IntToDecimal(n) {
      if m >= 0 {
        DecimalRoundTrip(m);
        DecimalRoundTrip(n);
      } else {
        var s := IntToDecimal(m);
        assert s[1..] == NatToDecimal(-m) && s[1..] == NatToDecimal(-n);
        DecimalRoundTrip(-m);
        DecimalRoundTrip(-n);
      }
    }
  }

  /** `${v}`: the string a template literal (or `String(v)`, or fetch's URL
      argument) makes of a value. */
  function ToStr(v: Value): string
    decreases v, if v.Arr? then |v.elems| + 1 else 0
  {
    match v
    case Undefined => "undefined"
    case Null => "null"
    case Bool(b) => if b then "true" else "false"
    case Num(n) => IntToDecimal(n)
    case Str(s) => s
    case Arr(es) => JoinElements(es, v)
    case Obj(_) => "[object Object]"
  }

  /** Array.prototype.join(",") as Array.prototype.toString uses it: undefined
      and null elements become empty. */
  function JoinElements(es: seq<Value>, whole: Value): string
    requires forall i :: 0 <= i < |es| ==> es[i] < whole
    decreases whole, |es|
  {
    if es == [] then ""
    else
      var head := if es[0].Undefined? || es[0].Null? then "" else ToStr(es[0]);
      if |es| == 1 then head else head + "," + JoinElements(es[1..], whole)
  }

  /** `v.key`: a TypeError on undefined and null, the property (or undefined)
      on an object, undefined on every other value. */
  function Get(v: Value, key: string): Result<Value, Error> {
    match v
    case Undefined => Err(TypeError)
    case Null => Err(TypeError)
    case Obj(props) => Ok(if key in props then props[key] else Undefined)
    case _ => Ok(Undefined)
  }

  /** `key in v`: a TypeError unless v is an object; arrays are taken to hold
      no property of the (non-index) names used here. */
  function HasProperty(v: Value, key: string): Result<bool, Error> {
    match v
    case Obj(props) => Ok(key in props)
    case Arr(_) => Ok(false)
    case _ => Err(TypeError)
  }

  predicate StartsWith(s: string, prefix: string) {
    |prefix| <= |s| && s[..|prefix|] == prefix
  }

  predicate EndsWith(s: string, suffix: string) {
    |suffix| <= |s| && s[|s| - |suffix|..] == suffix
  }

  predicate MatchesAt(s: string, pat: string, i: nat) {
    i + |pat| <= |s| && s[i..i + |pat|] == pat
  }

  /** The first index at or after i where pat occurs in s. */
  function IndexFrom(s: string, pat: string, i: nat): (r: Option<nat>)
    ensures r.Some? ==> i <= r.value && MatchesAt(s, pat, r.value)
    ensures r.Some? ==> forall j :: i <= j < r.value ==> !MatchesAt(s, pat, j)
    ensures r.None? ==> forall j :: i <= j ==> !MatchesAt(s, pat, j)
    decreases |s| - i
  {
    if i + |pat| > |s| then None
    else if s[i..i + |pat|] == pat then Some(i)
    else IndexFrom(s, pat, i + 1)
  }

  /** `s.indexOf(pat)`, with None for -1. */
  function IndexOf(s: string, pat: string): (r: Option<nat>)
    ensures r.Some? ==> MatchesAt(s, pat, r.value)
    ensures r.Some? ==> forall j :: 0 <= j < r.value ==> !MatchesAt(s, pat, j)
    ensures r.None? ==> forall j :: 0 <= j ==> !MatchesAt(s, pat, j)
  {
    IndexFrom(s, pat, 0)
  }

  /** The replacement text String.prototype.replace inserts for a match with
      no capture groups: `$$`, `$&`, `` $` `` and `$'` are expanded, every
      other `$` stands for itself. */
  function Substitution(rep: string, matched: string, before: string, after: string): string
    decreases |rep|
  {
    if rep == [] then []
    else if rep[0] == '$' && |rep| >= 2 && rep[1] in "$&`'" then
      (match rep[1]
       case '$' => "$"
       case '&' => matched
       case '`' => before
       case _ => after)
      + Substitution(rep[2..], matched, before, after)
    else [rep[0]] + Substitution(rep[1..], matched, before, after)
  }

  /** A replacement without `$` is inserted as it is. */
  lemma {:induction false} SubstitutionOfPlainText(rep: string, matched: string, before: string, after: string)
    requires '$' !in rep
    ensures Substitution(rep, matched, before, after) == rep
  {
    if rep != [] {
      assert '$' !in rep[1..];
      SubstitutionOfPlainText(rep[1..], matched, before, after);
    }
  }

  /** `s.replace(pat, rep)` with a string pattern: only the first occurrence
      of pat is replaced. */
  function ReplaceFirst(s: string, pat: string, rep: string): (r: string)
    ensures IndexOf(s, pat).None? ==> r == s
    ensures IndexOf(s, pat).Some? ==>
      StartsWith(r, s[..IndexOf(s, pat).value]) && EndsWith(r, s[IndexOf(s, pat).value + |pat|..])
  {
    match IndexOf(s, pat)
    case None => s
    case Some(i) =>
      var before, after := s[..i], s[i + |pat|..];
      before + Substitution(rep, pat, before, after) + after
  }

  /** A string without the first character of pat holds no occurrence of
      it, so replace leaves it as it is. */
  lemma {:induction false} ReplaceWithoutMatch(s: string, pat: string, rep: string)
    requires |pat| > 0 && pat[0] !in s
    ensures ReplaceFirst(s, pat, rep) == s
  {
    forall j: nat
      ensures !MatchesAt(s, pat, j)
    {
      if j + |pat| <= |s| {
        assert s[j..j + |pat|][0] == s[j];
      }
    }
    assert IndexOf(s, pat).None?;
  }

  /** With the first occurrence at i and a `$`-free replacement, exactly that
      occurrence is swapped for the replacement. */
  lemma ReplaceFirstAt(s: string, pat: string, rep: string, i: nat)
    requires MatchesAt(s, pat, i)
    requires forall j :: 0 <= j < i ==> !MatchesAt(s, pat, j)
    requires '$' !in rep
    ensures ReplaceFirst(s, pat, rep) == s[..i] + rep + s[i + |pat|..]
  {
    assert IndexOf(s, pat) == Some(i);
    SubstitutionOfPlainText(rep, pat, s[..i], s[i + |pat|..]);
  }

  /** In `a + pat + b`, where a does not contain the first character of pat,
      the first occurrence of pat is the one right after a. */
  lemma FirstMatchAfter(a: string, pat: string, b: string)
    requires |pat| > 0 && pat[0] !in a
    ensures IndexOf(a + pat + b, pat) == Some(|a|)
  {
    var s := a + pat + b;
    assert s[|a|..|a| + |pat|] == pat;
    forall j | 0 <= j < |a|
      ensures !MatchesAt(s, pat, j)
    {
      assert s[j] == a[j];
    }
    assert MatchesAt(s, pat, |a|);
  }

  /** Filling one slot of a template: `a + pat + b` becomes `a + rep + b`
      when a does not contain the first character of pat and rep has no `$`.
      Any later occurrence of pat, inside b, is left in place. */
  lemma {:induction false} FillSlot(a: string, pat: string, b: string, rep: string)
    requires |pat| > 0 && pat[0] !in a && '$' !in rep
    ensures ReplaceFirst(a + pat + b, pat, rep) == a + rep + b
  {
    var s := a + pat + b;
    FirstMatchAfter(a, pat, b);
    ReplaceFirstAt(s, pat, rep, |a|);
    assert s[..|a|] == a;
    assert s[|a| + |pat|..] == b;
  }
}
