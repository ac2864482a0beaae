/** The filename sanitiser of `createPresignedUpload`: the regular expression
    `/[^\w.\-]/g` with replacement `_`. Without the `u` flag `\w` is the ASCII
    class `[A-Za-z0-9_]` and the match is one code unit at a time. */
module FileNames {
  import opened JsStrings

  /** A code unit the character class `[\w.\-]` matches. */
  predicate IsSafeUnit(c: CodeUnit)
  {
    ('A' as int <= c <= 'Z' as int) || ('a' as int <= c <= 'z' as int)
    || ('0' as int <= c <= '9' as int) || c == UNDERSCORE || c == DOT || c == DASH
  }

  /** A name made only of safe code units. */
  predicate IsCleanName(s: JsString)
  {
    forall i :: 0 <= i < |s| ==> IsSafeUnit(s[i])
  }

  /** `filename.replace(/[^\w.\-]/g, '_')`: each code unit the negated class
      matches is replaced by one `_`; nothing is dropped or inserted. */
  function CleanName(filename: JsString): (r: JsString)
    ensures |r| == |filename|
    ensures forall i :: 0 <= i < |filename| && IsSafeUnit(filename[i]) ==> r[i] == filename[i]
    ensures forall i :: 0 <= i < |filename| && !IsSafeUnit(filename[i]) ==> r[i] == UNDERSCORE
  {
    seq(|filename|, i requires 0 <= i < |filename| =>
      if IsSafeUnit(filename[i]) then filename[i] else UNDERSCORE)
  }

  /** Every unit of a sanitised name is an ASCII letter, a digit, `_`, `.` or `-`. */
  lemma CleanNameIsClean(filename: JsString)
    ensures IsCleanName(CleanName(filename))
  {
  }

  /** In particular a sanitised name contains no `/`. */
  lemma CleanNameHasNoSlash(filename: JsString)
    ensures SLASH !in CleanName(filename)
    ensures Count(CleanName(filename), SLASH) == 0
  {
    var r := CleanName(filename);
    assert forall i :: 0 <= i < |r| ==> r[i] != SLASH by {
      CleanNameIsClean(filename);
    }
    CountAbsent(r, SLASH);
  }

  /** Sanitising leaves a name unchanged exactly when it is already clean. */
  lemma CleanNameFixedPoint(filename: JsString)
    ensures CleanName(filename) == filename <==> IsCleanName(filename)
  {
    if IsCleanName(filename) {
      assert forall i :: 0 <= i < |filename| ==> CleanName(filename)[i] == filename[i];
    }
  }

  /** Sanitising twice is sanitising once. */
  lemma CleanNameIdempotent(filename: JsString)
    ensures CleanName(CleanName(filename)) == CleanName(filename)
  {
    CleanNameIsClean(filename);
    CleanNameFixedPoint(CleanName(filename));
  }

  /** Spaces and `!` become `_`; the extension survives. */
  lemma CleanNameExamplePhoto()
    ensures CleanName(Units("my photo!.png")) == Units("my_photo_.png")
  {
  }

  /** Dots are in the class, so `..` is kept and only the `/` is replaced. */
  lemma CleanNameExampleTraversal()
    ensures CleanName(Units("../x")) == Units(".._x")
  {
  }

  /** A character outside the Basic Multilingual Plane (U+1F600, the surrogate
      pair D83D DE00) is two code units and so becomes two underscores. */
  lemma CleanNameExampleSurrogatePair()
    ensures CleanName([0xD83D, 0xDE00] + Units(".png")) == Units("__.png")
  {
  }

  /** The empty name is not rejected: it sanitises to the empty name. */
  lemma CleanNameExampleEmpty()
    ensures CleanName([]) == []
  {
  }
}
