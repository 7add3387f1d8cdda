/** Labels an error as a validation error or as an introspection-disabled
    error by looking at its message
    (src/error/DetermineValidationOrIntrospectionDisabledError.ts). */
module ErrorClassification {

  /** The `unknown` value handed to the classifier: either something that is
      not an `Error` instance, or an `Error` with its message. */
  datatype ErrorValue = NotAnError | Err(message: string)

  /** The two labels; the source exports them as the constants
      INTROSPECTION_DISABLED_ERROR and VALIDATION_ERROR. */
  datatype ErrorLabel = IntrospectionDisabledError | ValidationError

  const INTROSPECTION: string := "introspection"
  const DISABLED: string := "disabled"

  /** `sub` occurs in `s` starting at index `i`. */
  ghost predicate OccursAt(sub: string, s: string, i: nat) {
    i + |sub| <= |s| && s[i..i + |sub|] == sub
  }

  /** `sub` is a (case-sensitive) substring of `s`. */
  ghost predicate OccursIn(sub: string, s: string) {
    exists i: nat :: OccursAt(sub, s, i)
  }

  /** An occurrence past the first position of `s` is an occurrence in `s[1..]`,
      one position earlier, and the other way round. */
  lemma OccursInTail(sub: string, s: string)
    requires |s| > 0 && !OccursAt(sub, s, 0)
    ensures OccursIn(sub, s) <==> OccursIn(sub, s[1..])
  {
    if OccursIn(sub, s) {
      var i: nat :| OccursAt(sub, s, i);
      assert i > 0;
      assert s[1..][i - 1..i - 1 + |sub|] == s[i..i + |sub|];
      assert OccursAt(sub, s[1..], i - 1);
    }
    if OccursIn(sub, s[1..]) {
      var j: nat :| OccursAt(sub, s[1..], j);
      assert s[j + 1..j + 1 + |sub|] == s[1..][j..j + |sub|];
      assert OccursAt(sub, s, j + 1);
    }
  }

  /** `s.includes(sub)`: scans `s` from the left for an occurrence of `sub`. */
  function Includes(s: string, sub: string): (r: bool)
    ensures r <==> OccursIn(sub, s)
    decreases |s|
  {
    if |sub| > |s| then
      false
    else if s[..|sub|] == sub then
      assert OccursAt(sub, s, 0);
      true
    else
      OccursInTail(sub, s);
      Includes(s[1..], sub)
  }

  /** determineValidationOrIntrospectionDisabledError: an `Error` with a
      non-empty message that includes both "introspection" and "disabled" is
      an introspection-disabled error; every other value is a validation
      error. The explicit non-empty test is subsumed by the substring test. */
  function DetermineValidationOrIntrospectionDisabledError(error: ErrorValue): (kind: ErrorLabel)
    ensures kind == IntrospectionDisabledError <==>
              error.Err? && OccursIn(INTROSPECTION, error.message) && OccursIn(DISABLED, error.message)
    ensures error.NotAnError? ==> kind == ValidationError
  {
    if error.Err? && error.message != []
       && Includes(error.message, INTROSPECTION) && Includes(error.message, DISABLED)
    then IntrospectionDisabledError
    else ValidationError
  }

  /** An `Error` whose message is empty is a validation error. */
  lemma EmptyMessageIsValidationError()
    ensures DetermineValidationOrIntrospectionDisabledError(Err("")) == ValidationError
  {
  }

  /** Matching is case-sensitive: capitalised words do not match. */
  lemma CapitalisedWordsAreNotMatched()
    ensures DetermineValidationOrIntrospectionDisabledError(Err("Introspection Disabled")) == ValidationError
  {
    var m := "Introspection Disabled";
    // the only lower-case 'd' is the last character, too late to start "disabled"
    assert 'd' !in m[..|m| - 1];
    forall i: nat | i + |DISABLED| <= |m|
      ensures !OccursAt(DISABLED, m, i)
    {
      assert m[i] in m[..|m| - 1];
      assert m[i..i + |DISABLED|][0] == m[i] != DISABLED[0];
    }
  }

  /** A message that contains both words is labelled introspection-disabled,
      whichever of the two comes first. */
  lemma {:induction false} EitherOrderIsIntrospectionDisabled(p: string, q: string, r: string)
    ensures DetermineValidationOrIntrospectionDisabledError(Err(p + INTROSPECTION + q + DISABLED + r))
              == IntrospectionDisabledError
    ensures DetermineValidationOrIntrospectionDisabledError(Err(p + DISABLED + q + INTROSPECTION + r))
              == IntrospectionDisabledError
  {
    var m1 := p + INTROSPECTION + q + DISABLED + r;
    assert OccursAt(INTROSPECTION, m1, |p|) by {
      assert m1[|p|..|p| + |INTROSPECTION|] == INTROSPECTION;
    }
    assert OccursAt(DISABLED, m1, |p| + |INTROSPECTION| + |q|) by {
      var k := |p| + |INTROSPECTION| + |q|;
      assert m1[k..k + |DISABLED|] == DISABLED;
    }
    var m2 := p + DISABLED + q + INTROSPECTION + r;
    assert OccursAt(DISABLED, m2, |p|) by {
      assert m2[|p|..|p| + |DISABLED|] == DISABLED;
    }
    assert OccursAt(INTROSPECTION, m2, |p| + |DISABLED| + |q|) by {
      var k := |p| + |DISABLED| + |q|;
      assert m2[k..k + |INTROSPECTION|] == INTROSPECTION;
    }
  }

  /** An occurrence in `m` is an occurrence in any extension `p + m + q`. */
  lemma OccursInExtension(sub: string, m: string, p: string, q: string)
    requires OccursIn(sub, m)
    ensures OccursIn(sub, p + m + q)
  {
    var i: nat :| OccursAt(sub, m, i);
    var e := p + m + q;
    assert e[|p| + i..|p| + i + |sub|] == m[i..i + |sub|];
    assert OccursAt(sub, e, |p| + i);
  }

  /** Extending a message that is labelled introspection-disabled, on either
      side, keeps that label. */
  lemma ExtendedMessageKeepsLabel(m: string, p: string, q: string)
    requires DetermineValidationOrIntrospectionDisabledError(Err(m)) == IntrospectionDisabledError
    ensures DetermineValidationOrIntrospectionDisabledError(Err(p + m + q)) == IntrospectionDisabledError
  {
    OccursInExtension(INTROSPECTION, m, p, q);
    OccursInExtension(DISABLED, m, p, q);
  }
}
