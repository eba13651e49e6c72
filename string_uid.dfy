/** StringUID: the letter 'C' followed by exactly 7 ASCII digits, as the
    class's pattern is written. It declares only the concept-query role. */
module StringUIDs {
  import opened SearchUIDs
  import opened Patterns

  /** Full match of the pattern `C\d{7}`. */
  predicate IsSui(s: string)
    ensures IsSui(s) ==> |s| == 8 && s[0] == 'C'
  {
    LetterDigitsCharacterization(s, 'C', 7, 7);
    MatchesLetterDigits(s, 'C', 7, 7)
  }

  /** An instance of the StringUID class. The constructor is private and
      only the factory calls it, so every instance matches the pattern. */
  type StringUID = u: SearchUID | u.kind == StringKind && IsSui(u.value)
    witness SearchUID(StringKind, "C0000000")

  /** The key name of the kind, shared by every instance. */
  const KindKeyName: string := "SUI"

  /** The factory's fixed error message, as the class has it. */
  const FormatMessage: string :=
    "Concept Unique Identifiers must consist of the letter 'S' followed by 7 digits"

  /** The validating factory: a full-match test, then either an instance
      wrapping the input verbatim or the malformed-identifier error. */
  function FromString(suid: string): (r: Result<StringUID, MalformedUID>)
    ensures r.Success? ==> IsSui(r.value.value) && r.value.value == suid
  {
    if IsSui(suid) then var u: StringUID := SearchUID(StringKind, suid); Success(u)
    else Failure(MalformedUID(FormatMessage))
  }

  /** The query parameter an SUI fills, whatever the instance. */
  function KeyName(u: StringUID): (k: string)
    ensures k == "SUI"
  {
    KindKeyName
  }

  /** Every instance is an 8-character string of the pattern. */
  lemma InstancesWellFormed(u: StringUID)
    ensures IsSui(u.value) && |u.value| == 8 && u.value[0] == 'C'
  {
  }

  /** The roles the class declares. */
  const Roles: set<Role> := {CuiQuery}

  /** The factory succeeds exactly on 'C' followed by 7 ASCII digits. */
  lemma FromStringSucceedsIff(s: string)
    ensures FromString(s).Success?
        <==> (|s| == 8 && s[0] == 'C' && forall i :: 1 <= i < |s| ==> IsAsciiDigit(s[i]))
  {
    LetterDigitsCharacterization(s, 'C', 7, 7);
  }

  /** On success the instance wraps the input verbatim and has length 8. */
  lemma FromStringValue(s: string)
    requires FromString(s).Success?
    ensures FromString(s).value == SearchUID(StringKind, s)
    ensures |FromString(s).value.value| == 8
  {
  }

  /** Every failure raises the same error: its message does not depend on
      the input. */
  lemma FromStringErrorConstant(s1: string, s2: string)
    requires FromString(s1).Failure? && FromString(s2).Failure?
    ensures FromString(s1).error == FromString(s2).error
  {
  }

  /** Full match: nothing may follow a valid SUI. */
  lemma FromStringFullMatch(s: string, t: string)
    requires FromString(s).Success? && t != []
    ensures FromString(s + t).Failure?
  {
  }

  /** The factory is injective: distinct inputs give distinct instances. */
  lemma FromStringInjective(s1: string, s2: string)
    requires FromString(s1).Success? && FromString(s2).Success?
    ensures FromString(s1).value == FromString(s2).value <==> s1 == s2
  {
  }

  /** The key name does not depend on the instance. */
  lemma KeyNameConstant(u: StringUID, v: StringUID)
    ensures KeyName(u) == KeyName(v) == "SUI"
  {
  }

  /** The only role is the concept-query role. */
  lemma RolesExactlyCui(r: Role)
    ensures r in Roles <==> r == CuiQuery
  {
  }

  /** "C1234567", the demonstration's first input, passes verbatim. */
  lemma AcceptsC1234567()
    ensures FromString("C1234567").Success? && FromString("C1234567").value.value == "C1234567"
  {
  }

  /** "C0000000", all zero digits, passes verbatim. */
  lemma AcceptsC0000000()
    ensures FromString("C0000000").Success? && FromString("C0000000").value.value == "C0000000"
  {
  }

  /** The inputs the demonstration feeds to the factory that it rejects: a
      wrong leading letter, six digits, no digits. */
  lemma RejectedExamples()
    ensures FromString("L1234567").Failure?
    ensures FromString("C123456").Failure?
    ensures FromString("C").Failure?
  {
  }
}
