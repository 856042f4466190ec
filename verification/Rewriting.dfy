/** What the proxy does with one client message. */
module Rewriting {
  import opened Options
  import opened Lru
  import opened Server
  import opened Connection
  import opened Names
  import opened Bytes
  import Backend

  /** A client message on a held connection. `Other` stands for everything that is
      forwarded untouched (Execute, a portal Describe, ...). */
  datatype ClientMsg =
    | CParse(name: Name, stmt: Stmt)
    | CUse(target: Target, name: Name)
    | CClosePortal
    | CQuery(discardAll: bool)
    | CSync
    | COther

  /** Messages the proxy answers itself. */
  datatype Absorbed = CloseOne(name: Name) | Deallocate(name: Name) | DeallocateAll

  datatype Outcome =
    | Sent(names: NameMap, store: Store, conn: Conn)
    | Answered(names: NameMap, store: Store, conn: Conn)   // a synthetic ParseComplete
    | Bail                                                 // no stored Parse: the connection is given up

  /** The connection after the tracker was told that `canon` will be prepared, before any
      message for it. */
  function Announced(c: Conn, max: nat, canon: Name): Conn {
    c.(tracker := c.tracker.NoteReprepare(max, canon).0)
  }

  /** The connection after `Bind`/`Describe` made sure that `canon` is prepared. */
  function Reprepared(c: Conn, max: nat, store: Store, canon: Name): Option<Conn> {
    if canon in c.tracker.order then Some(Announced(c, max, canon))
    else if canon in store then Some(EnsurePrepared(c, max, canon, store[canon].stmt))
    else None
  }

  function Outbound(canonOf: Stmt -> Name, max: nat, names: NameMap, store: Store, c: Conn,
                    msg: ClientMsg, wanted: Option<Stmt>, id: nat): Outcome {
    match msg
    case CParse(name, stmt) =>
      var canon := canonOf(stmt);
      var (names', store') := Register(names, store, name, canon, stmt);
      var (c', synthesized) := SendParse(c, max, canon, stmt, Client(id));
      if synthesized then Answered(names', store', c') else Sent(names', store', c')
    case CUse(target, name) =>
      if name in names then
        match Reprepared(c, max, store, names[name])
        case None => Bail
        case Some(c') => Sent(names, store, Put(c', Use(target, names[name], wanted, id)))
      else Sent(names, store, Put(c, Use(target, name, None, id)))
    case CClosePortal => Sent(names, store, SendPortalClose(c, id))
    case CQuery(discardAll) => Sent(names, store, SendQuery(c, discardAll, id))
    case CSync => Sent(names, store, Put(c, Sync(id)))
    case COther => Sent(names, store, Put(c, Other(id)))
  }

  function Absorb(names: NameMap, store: Store, a: Absorbed): (NameMap, Store) {
    match a
    case CloseOne(name) => Remove(names, store, name)
    case Deallocate(name) => Remove(names, store, name)
    case DeallocateAll => (map[], ReleaseAll(store, names))
  }

  /** "DEALLOCATE". */
  const DEALLOCATE_TAG: seq<Byte> := [68, 69, 65, 76, 76, 79, 67, 65, 84, 69]

  /** What the client gets for an absorbed message, as if the backend had processed it. */
  function SyntheticReplies(a: Absorbed, status: Backend.TransactionStatus): seq<Backend.BackendMessage> {
    if a.CloseOne? then [Backend.CloseComplete]
    else [Backend.CommandComplete(DEALLOCATE_TAG), Backend.ReadyForQuery(status)]
  }

  predicate Spells(bytes: seq<Byte>, text: string) {
    |bytes| == |text| && forall i :: 0 <= i < |text| ==> bytes[i] == text[i] as int
  }

  /** A statement Close is answered by a CloseComplete and nothing else; a DEALLOCATE, of a name
      or of all, by its completion and then the ReadyForQuery of the status given. */
  lemma AbsorbedReplies(a: Absorbed, status: Backend.TransactionStatus)
    ensures a.CloseOne? ==> SyntheticReplies(a, status) == [Backend.CloseComplete]
    ensures a.Deallocate? || a.DeallocateAll? ==>
              exists tag :: Spells(tag, "DEALLOCATE") &&
                SyntheticReplies(a, status) == [Backend.CommandComplete(tag), Backend.ReadyForQuery(status)]
  {
    assert Spells(DEALLOCATE_TAG, "DEALLOCATE");
  }
}
