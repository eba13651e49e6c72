/** What every UMLS search identifier shares: the wrapped string, the kind
    it belongs to, the capability roles a kind may declare, and the single
    error a factory raises. */
module SearchUIDs {

  /** The marker interfaces an identifier class may implement; each one
      makes the class usable as the search key of one query category. */
  datatype Role =
    | CuiQuery       // CUIQuerySearchUID
    | AuiQuery       // AUIQuerySearchUID
    | StrQuery       // STRQuerySearchUID
    | TuiQuery       // TUIQuerySearchUID
    | SabQuery       // SABQuerySearchUID
    | ParentsQuery   // ParentsQuerySearchUID
    | NeighborQuery  // NeighborQuerySearchUID
    | MapToIdQuery   // MapToIdQuerySearchUID
    | CodeQuery      // CodeQuerySearchUID

  /** The concrete identifier classes of this model. */
  datatype UidKind = AtomKind | StringKind

  /** An identifier instance: its concrete class and the string it wraps
      (the value `getValue` returns). Instances are immutable. */
  datatype SearchUID = SearchUID(kind: UidKind, value: string)

  /** MalformedUMLSUniqueIdentifierException, the one failure of a factory. */
  datatype MalformedUID = MalformedUID(message: string)

  datatype Result<+T, +E> = Success(value: T) | Failure(error: E)
}
