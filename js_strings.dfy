/** JavaScript strings as the core sees them: sequences of UTF-16 code units.
    A regular expression without the `u` flag, `String.prototype.replace` and
    template literals all work on code units, not on Unicode characters, so a
    character outside the Basic Multilingual Plane is two units here. */
module JsStrings {

  /** One UTF-16 code unit. */
  type CodeUnit = c: int | 0 <= c < 0x1_0000

  /** A JavaScript string value. */
  type JsString = seq<CodeUnit>

  datatype Option<+T> = None | Some(value: T)

  datatype Result<+T, +E> = Ok(value: T) | Err(error: E)

  const SLASH: CodeUnit := 0x2F       // '/'
  const DASH: CodeUnit := 0x2D        // '-'
  const DOT: CodeUnit := 0x2E         // '.'
  const UNDERSCORE: CodeUnit := 0x5F  // '_'

  /** True if every character of a Dafny string fits in one code unit. */
  predicate IsBmp(s: string)
  {
    forall i :: 0 <= i < |s| ==> s[i] as int < 0x1_0000
  }

  /** The JavaScript string written in source as the literal `s`
      (for literals made of single-unit characters). */
  function Units(s: string): (r: JsString)
    requires IsBmp(s)
    ensures |r| == |s|
    ensures forall i :: 0 <= i < |s| ==> r[i] == s[i] as int
  {
    seq(|s|, i requires 0 <= i < |s| => s[i] as int)
  }

  /** The text a template literal `${v}` produces for a `string | undefined`. */
  function TemplateText(v: Option<JsString>): (r: JsString)
  {
    match v
    case Some(s) => s
    case None => Units("undefined")
  }

  /** JavaScript truthiness of a `string | undefined`: defined and non-empty. */
  predicate Truthy(v: Option<JsString>)
  {
    v.Some? && v.value != []
  }

  /** The JavaScript expression `a || b` on two `string | undefined` values. */
  function JsOr(a: Option<JsString>, b: Option<JsString>): (r: Option<JsString>)
  {
    if Truthy(a) then a else b
  }

  /** `a || b` is truthy exactly when one of its operands is, and it is
      always one of its two operands. */
  lemma JsOrTruthy(a: Option<JsString>, b: Option<JsString>)
    ensures Truthy(JsOr(a, b)) <==> Truthy(a) || Truthy(b)
    ensures JsOr(a, b) == a || JsOr(a, b) == b
  {
  }

  /** Number of occurrences of `c` in `s`. */
  function Count(s: JsString, c: CodeUnit): (n: nat)
    ensures n <= |s|
  {
    if s == [] then 0 else (if s[0] == c then 1 else 0) + Count(s[1..], c)
  }

  lemma {:induction false} CountConcat(a: JsString, b: JsString, c: CodeUnit)
    ensures Count(a + b, c) == Count(a, c) + Count(b, c)
  {
    if a == [] {
      assert a + b == b;
    } else {
      assert (a + b)[1..] == a[1..] + b;
      CountConcat(a[1..], b, c);
    }
  }

  lemma {:induction false} CountAbsent(s: JsString, c: CodeUnit)
    requires forall i :: 0 <= i < |s| ==> s[i] != c
    ensures Count(s, c) == 0
  {
    if s != [] {
      CountAbsent(s[1..], c);
    }
  }

  /** The part of `s` after its last `/` (all of `s` when it has none):
      the last segment of an object key. */
  function LastSegment(s: JsString): (r: JsString)
    ensures |r| <= |s| && r == s[|s| - |r|..]
    ensures SLASH !in r
    ensures |r| < |s| ==> s[|s| - |r| - 1] == SLASH
  {
    if s == [] then []
    else if s[|s| - 1] == SLASH then []
    else LastSegment(s[..|s| - 1]) + [s[|s| - 1]]
  }

  lemma {:induction false} LastSegmentAfterSlash(a: JsString, b: JsString)
    requires SLASH !in b
    ensures LastSegment(a + [SLASH] + b) == b
  {
    var s := a + [SLASH] + b;
    if b != [] {
      var b' := b[..|b| - 1];
      assert s[..|s| - 1] == a + [SLASH] + b';
      LastSegmentAfterSlash(a, b');
      assert b == b' + [b[|b| - 1]];
    }
  }
}
