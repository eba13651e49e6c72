/** AtomUID: an Atom Unique Identifier, the letter 'A' followed by 7 or 8
    ASCII digits. The class implements nine capability roles, so an AUI is
    accepted as the key of every query category. */
module AtomUIDs {
  import opened SearchUIDs
  import opened Patterns

  /** Full match of the pattern `A\d{7,8}`. */
  predicate IsAui(s: string)
    ensures IsAui(s) ==> (|s| == 8 || |s| == 9) && s[0] == 'A'
  {
    LetterDigitsCharacterization(s, 'A', 7, 8);
    MatchesLetterDigits(s, 'A', 7, 8)
  }

  /** An instance of the AtomUID class. The constructor is private, so a
      value either came through the factory and matches the pattern, or is
      the package-internal sentinel, which wraps the empty string. */
  type AtomUID = u: SearchUID | u.kind == AtomKind && (IsAui(u.value) || u.value == "")
    witness SearchUID(AtomKind, "")

  /** The text the factory's error message starts with; the offending input
      is appended to it. */
  const FormatMessage: string :=
    "Atom Unique Identifiers must consist of the letter 'A' followed by 7 or 8 digits: "

  /** The validating factory: a full-match test, then either an instance
      wrapping the input verbatim or the malformed-identifier error. */
  function FromString(auid: string): (r: Result<AtomUID, MalformedUID>)
    ensures r.Success? ==> IsAui(r.value.value) && r.value.value == auid
  {
    if IsAui(auid) then var u: AtomUID := SearchUID(AtomKind, auid); Success(u)
    else Failure(MalformedUID(FormatMessage + auid))
  }

  /** The query parameter an AUI fills, whatever the instance. */
  function KeyName(u: AtomUID): (k: string)
    ensures k == "AUI"
  {
    "AUI"
  }

  /** AtomUID.equals: true only for another AtomUID with an equal value. */
  predicate Equals(u: AtomUID, o: SearchUID)
    ensures Equals(u, o) ==> o.kind == AtomKind
    ensures Equals(u, o) <==> u == o
  {
    o.kind == AtomKind && u.value == o.value
  }

  /** The roles the class declares. */
  const Roles: set<Role> :=
    {CuiQuery, AuiQuery, StrQuery, TuiQuery, SabQuery,
     ParentsQuery, NeighborQuery, MapToIdQuery, CodeQuery}

  /** EMPTY_AUI: built directly, not through the factory. */
  const EmptyAui: AtomUID := SearchUID(AtomKind, "")

  /** Every instance matches the pattern, except the sentinel. */
  lemma InstancesWellFormed(u: AtomUID)
    ensures IsAui(u.value) || u == EmptyAui
  {
  }

  /** The factory succeeds exactly on 'A' followed by 7 or 8 ASCII digits
      and on nothing else. */
  lemma FromStringSucceedsIff(s: string)
    ensures FromString(s).Success?
        <==> ((|s| == 8 || |s| == 9) && s[0] == 'A'
              && forall i :: 1 <= i < |s| ==> IsAsciiDigit(s[i]))
  {
    LetterDigitsCharacterization(s, 'A', 7, 8);
  }

  /** On success the instance is an AtomUID wrapping the input verbatim, of
      length 8 or 9 and starting with 'A'. */
  lemma FromStringValue(s: string)
    requires FromString(s).Success?
    ensures FromString(s).value == SearchUID(AtomKind, s)
    ensures 8 <= |FromString(s).value.value| <= 9 && FromString(s).value.value[0] == 'A'
  {
  }

  /** On failure the error is the malformed-identifier error and its message
      ends with the offending input. */
  lemma FromStringError(s: string)
    requires !IsAui(s)
    ensures FromString(s).Failure?
    ensures var m := FromString(s).error.message;
      |s| <= |m| && m[|m| - |s|..] == s && m[..|m| - |s|] == FormatMessage
  {
  }

  /** No string with trailing characters beyond a valid AUI is accepted
      unless they are digits that fit the 8-digit bound: the factory
      tests a full match, not a prefix. */
  lemma FromStringFullMatch(s: string, t: string)
    requires FromString(s).Success?
    ensures FromString(s + t).Success? <==> |s| + |t| <= 9 && AllDigits(t)
  {
    ExtensionMatches(s, t, 'A', 7, 8);
  }

  /** Two AUIs made by the factory are equal exactly when their inputs are. */
  lemma FromStringEquals(s1: string, s2: string)
    requires FromString(s1).Success? && FromString(s2).Success?
    ensures Equals(FromString(s1).value, FromString(s2).value) <==> s1 == s2
  {
  }

  /** The key name does not depend on the instance. */
  lemma KeyNameConstant(u: AtomUID, v: AtomUID)
    ensures KeyName(u) == KeyName(v) == "AUI"
  {
  }

  /** equals coincides with identity of kind and value: it never holds
      against an identifier of another class, even one wrapping the same
      string. */
  lemma EqualsIsValueIdentity(u: AtomUID, o: SearchUID)
    ensures Equals(u, o) <==> u == o
    ensures o.kind != AtomKind ==> !Equals(u, o)
  {
  }

  /** equals is an equivalence relation on AtomUIDs. */
  lemma EqualsEquivalence(u: AtomUID, v: AtomUID, w: AtomUID)
    ensures Equals(u, u)
    ensures Equals(u, v) ==> Equals(v, u)
    ensures Equals(u, v) && Equals(v, w) ==> Equals(u, w)
  {
  }

  /** An AUI is usable as the key of every query category: the nine roles
      are all the roles there are. */
  lemma RolesAreAll(r: Role)
    ensures r in Roles
    ensures |Roles| == 9
  {
  }

  /** The sentinel wraps the empty string, which the pattern rejects, so no
      factory call can produce it; it still reports the AUI key name. */
  lemma EmptyAuiBypassesFactory(s: string)
    ensures EmptyAui.value == "" && !IsAui(EmptyAui.value)
    ensures KeyName(EmptyAui) == "AUI"
    ensures FromString(s) != Success(EmptyAui)
  {
  }

  /** Seven digits, the shorter bound, pass verbatim. */
  lemma AcceptsSevenDigits()
    ensures FromString("A1234567").Success? && FromString("A1234567").value.value == "A1234567"
  {
  }

  /** Eight digits, the longer bound, pass verbatim. */
  lemma AcceptsEightDigits()
    ensures FromString("A12345678").Success? && FromString("A12345678").value.value == "A12345678"
  {
  }

  /** Too few or too many digits, a lower-case letter, a trailing blank and
      the empty string are all rejected. */
  lemma RejectedExamples()
    ensures FromString("A123456").Failure?
    ensures FromString("A123456789").Failure?
    ensures FromString("a1234567").Failure?
    ensures FromString("A1234567 ").Failure?
    ensures FromString("").Failure?
  {
  }
}
