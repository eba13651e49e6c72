/** The two modelled identifier kinds with their static descriptors: the
    key name and the capability roles each kind declares, and the kind's
    factory. A query operation constrained to a role accepts exactly the
    identifiers whose kind declares it. The library's other identifier
    classes are not part of this model, so statements that range over all
    kinds range over these two. */
module UidKinds {
  import opened SearchUIDs
  import opened Patterns
  import AtomUIDs
  import StringUIDs

  /** The roles each kind declares, as its class's implements clause. */
  function RolesOf(k: UidKind): (rs: set<Role>)
    ensures CuiQuery in rs
  {
    match k
    case AtomKind => AtomUIDs.Roles
    case StringKind => StringUIDs.Roles
  }

  /** The key name each kind reports. */
  function KeyNameOf(k: UidKind): (name: string)
    ensures |name| == 3
  {
    match k
    case AtomKind => AtomUIDs.KeyName(AtomUIDs.EmptyAui)
    case StringKind => StringUIDs.KindKeyName
  }

  /** The factory of kind `k`. */
  function FromString(k: UidKind, s: string): (r: Result<SearchUID, MalformedUID>)
    ensures r.Success? ==> r.value.kind == k
  {
    match k
    case AtomKind => AtomUIDs.FromString(s)
    case StringKind => StringUIDs.FromString(s)
  }

  /** Whether `u` may be passed where a key for the query category `role`
      is required. */
  predicate AcceptsKey(role: Role, u: SearchUID)
    ensures role == CuiQuery ==> AcceptsKey(role, u)
  {
    role in RolesOf(u.kind)
  }

  /** Every instance of a kind reports that kind's key name. */
  lemma KeyNameOfInstances(a: AtomUIDs.AtomUID, s: StringUIDs.StringUID)
    ensures AtomUIDs.KeyName(a) == KeyNameOf(AtomKind)
    ensures StringUIDs.KeyName(s) == KeyNameOf(StringKind)
  {
  }

  /** The key names are three-letter tags, distinct per kind. */
  lemma KeyNamesDistinct(k1: UidKind, k2: UidKind)
    ensures |KeyNameOf(k1)| == 3
    ensures KeyNameOf(k1) == KeyNameOf(k2) <==> k1 == k2
  {
  }

  /** The exact role membership of each kind: an AUI has every role, an SUI
      only the concept-query role, so its role set lies strictly inside the
      AUI's. */
  lemma RoleMembership(r: Role)
    ensures r in RolesOf(AtomKind)
    ensures r in RolesOf(StringKind) <==> r == CuiQuery
    ensures RolesOf(StringKind) < RolesOf(AtomKind)
  {
  }

  /** Among the two modelled kinds, any query category other than the
      concept query rejects an SUI: only an AUI is accepted there. */
  lemma OnlyAtomBeyondCui(role: Role, u: SearchUID)
    requires role != CuiQuery
    ensures AcceptsKey(role, u) <==> u.kind == AtomKind
  {
  }

  /** For every kind: the factory succeeds exactly on the kind's pattern
      and then wraps the input verbatim. */
  lemma FromStringRoundTrip(k: UidKind, s: string)
    ensures FromString(k, s).Success?
        <==> (match k
              case AtomKind => AtomUIDs.IsAui(s)
              case StringKind => StringUIDs.IsSui(s))
    ensures FromString(k, s).Success? ==> FromString(k, s).value == SearchUID(k, s)
  {
  }

  /** No string is accepted by both factories (the leading letters differ),
      so validated identifiers of different kinds never wrap the same
      string. */
  lemma FactoriesDisjoint(s: string)
    ensures !(FromString(AtomKind, s).Success? && FromString(StringKind, s).Success?)
  {
  }
}
