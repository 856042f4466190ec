/** The mutable side of prepared-statement rewriting: the store, a client's name map and
    the outbound path to one server connection. */
module Prepared {
  import opened Options
  import opened Lru
  import opened Server
  import opened Connection
  import opened Names
  import opened Rewriting
  import Backend

  class StatementStore {
    var statements: Store

    constructor ()
      ensures statements == map[]
    {
      statements := map[];
    }

    method AddRef(canon: Name, stmt: Stmt)
      modifies this
      ensures statements == Names.AddRef(old(statements), canon, stmt)
    {
      if canon !in statements {
        statements := statements[canon := Entry(stmt, 0)];
      }
      var entry := statements[canon];
      statements := statements[canon := entry.(refs := entry.refs + 1)];
    }

    method Release(canon: Name)
      modifies this
      ensures statements == Names.Release(old(statements), canon)
    {
      if canon in statements {
        var entry := statements[canon];
        var refs := if entry.refs > 0 then entry.refs - 1 else 0;
        statements := statements[canon := entry.(refs := refs)];
        if refs == 0 {
          statements := statements - {canon};
        }
      }
    }

    method Get(canon: Name) returns (stmt: Option<Stmt>)
      ensures stmt == if canon in statements then Some(statements[canon].stmt) else None
    {
      stmt := if canon in statements then Some(statements[canon].stmt) else None;
    }
  }

  class ClientPrepared {
    var names: NameMap

    constructor ()
      ensures names == map[]
    {
      names := map[];
    }

    method Register(name: Name, stmt: Stmt, canonOf: Stmt -> Name, store: StatementStore) returns (canon: Name)
      modifies this, store
      ensures canon == canonOf(stmt)
      ensures (names, store.statements) == old(Names.Register(names, store.statements, name, canonOf(stmt), stmt))
    {
      canon := canonOf(stmt);
      var previous := if name in names then Some(names[name]) else None;
      names := names[name := canon];
      match previous {
        case Some(oldCanon) =>
          if oldCanon != canon {
            store.AddRef(canon, stmt);
            store.Release(oldCanon);
          }
        case None =>
          store.AddRef(canon, stmt);
      }
    }

    method Remove(name: Name, store: StatementStore)
      modifies this, store
      ensures (names, store.statements) == old(Names.Remove(names, store.statements, name))
    {
      if name in names {
        var canon := names[name];
        names := names - {name};
        store.Release(canon);
      }
    }

    /** Releases one reference per name; the map is walked in no particular order. */
    method ReleaseAll(store: StatementStore)
      requires forall c :: c in store.statements ==> store.statements[c].refs > 0
      modifies this, store
      ensures names == map[]
      ensures store.statements == old(Names.ReleaseAll(store.statements, names))
    {
      var todo := names;
      while todo != map[]
        invariant forall c :: c in store.statements ==> store.statements[c].refs > 0
        invariant Names.ReleaseAll(store.statements, todo) == old(Names.ReleaseAll(store.statements, names))
        decreases todo.Keys
      {
        var n :| n in todo;
        ReleaseAllStep(store.statements, todo, n);
        store.Release(todo[n]);
        todo := todo - {n};
      }
      ReleaseNone(store.statements, todo);
      names := map[];
    }
  }

  datatype Verdict = Forwarded | Synthetic | GiveUp

  /** A server connection as the proxy loops see it: the statement tracker, and the wire in
      both directions. The ghost fields are the other end, which no method here touches. */
  class ServerConn {
    const statements: PreparedStatements
    const max: nat
    var sent: seq<Msg>
    var replies: seq<Answer>
    ghost var backend: Statements
    ghost var skipping: bool

    ghost predicate Valid()
      reads this, statements, statements.cache
    {
      statements.Valid() && statements.cache.max == max
    }

    ghost function Contents(): Conn
      reads this, statements, statements.cache
    {
      Conn(statements.State(), backend, skipping, sent, replies)
    }

    constructor (max: nat)
      requires max < U32_LIMIT
      ensures Valid() && fresh(statements) && fresh(statements.cache)
      ensures Contents() == NEW && this.max == max
    {
      statements := new PreparedStatements(max);
      this.max := max;
      sent, replies := [], [];
      backend, skipping := map[], false;
    }

    method Send(m: Msg)
      requires Valid()
      modifies this`sent
      ensures Valid() && Contents() == old(Put(Contents(), m))
    {
      sent := sent + [m];
    }

    method SendEviction(eviction: Option<Name>)
      requires Valid()
      modifies this`sent
      ensures Valid() && Contents() == old(PutEviction(Contents(), eviction))
    {
      if eviction.Some? {
        Send(CloseStatement(eviction.value));
      }
    }

    /** False when the store has no Parse for `canon`: the caller gives the connection up, with
        the name already in the tracker. */
    method EnsurePrepared(canon: Name, store: StatementStore) returns (ok: bool)
      requires Valid()
      modifies this`sent, statements, statements.cache
      ensures Valid()
      ensures ok <==> old(Reprepared(Contents(), max, store.statements, canon)).Some?
      ensures ok ==> Some(Contents()) == old(Reprepared(Contents(), max, store.statements, canon))
      ensures !ok ==> Contents() == old(Announced(Contents(), max, canon))
    {
      var note := statements.NoteReprepare(canon);
      match note {
        case AlreadyPrepared =>
          ok := true;
        case Prepare(eviction) =>
          var stored := store.Get(canon);
          if stored.None? {
            return false;
          }
          SendEviction(eviction);
          Send(Parse(canon, stored.value, Injected));
          ok := true;
      }
    }

    /** Rewrites a client message and sends what has to go to the backend. */
    method RewriteOutbound(msg: ClientMsg, client: ClientPrepared, store: StatementStore, canonOf: Stmt -> Name,
                           wanted: Option<Stmt>, id: nat)
      returns (verdict: Verdict)
      requires Valid()
      modifies this`sent, statements, statements.cache, client, store
      ensures Valid()
      ensures match old(Outbound(canonOf, max, client.names, store.statements, Contents(), msg, wanted, id))
              case Sent(names, st, c) => verdict == Forwarded && client.names == names && store.statements == st &&
                    Contents() == c
              case Answered(names, st, c) => verdict == Synthetic && client.names == names &&
                    store.statements == st && Contents() == c
              case Bail =>
                && verdict == GiveUp && msg.CUse? && msg.name in old(client.names)
                && Contents() == old(Announced(Contents(), max, client.names[msg.name]))
                && client.names == old(client.names) && store.statements == old(store.statements)
    {
      verdict := Forwarded;
      match msg {
        case CParse(name, stmt) =>
          var canon := client.Register(name, stmt, canonOf, store);
          var note := statements.NoteClientParse(canon);
          match note {
            case Synthesize =>
              verdict := Synthetic;
            case ForwardParse(eviction) =>
              SendEviction(eviction);
              Send(Parse(canon, stmt, Client(id)));
          }
        case CUse(target, name) =>
          if name in client.names {
            var ok := EnsurePrepared(client.names[name], store);
            if !ok {
              return GiveUp;
            }
            Send(Use(target, client.names[name], wanted, id));
          } else {
            Send(Use(target, name, None, id));
          }
        case CClosePortal =>
          statements.NotePortalClose();
          Send(ClosePortal(id));
        case CQuery(discardAll) =>
          if discardAll {
            statements.DiscardAll();
          }
          Send(Query(discardAll, id));
        case CSync =>
          Send(Sync(id));
        case COther =>
          Send(Other(id));
      }
    }

    /** Takes one backend reply off the wire and says what the client gets of it. */
    method ForwardInbound() returns (delivered: Option<Answer>)
      requires Valid() && replies != []
      modifies this`replies, statements, statements.cache
      ensures Valid()
      ensures (Contents(), delivered) == old(Read(Contents()))
    {
      var reply := replies[0];
      replies := replies[1..];
      delivered := Some(reply);
      match reply {
        case ParseComplete(_, _) =>
          var r := statements.NextParseReply();
          if r == Suppress {
            delivered := None;
          }
        case CloseComplete(_) =>
          var r := statements.NextCloseReply();
          if r == Suppress {
            delivered := None;
          }
        case Error =>
          statements.RollBackAfterError();
        case _ =>
      }
    }
  }

  /** Statement Close and DEALLOCATE: only the client's map and the store change, and the
      client is answered as if the backend had done it. */
  method AbsorbMessage(a: Absorbed, client: ClientPrepared, store: StatementStore, status: Backend.TransactionStatus)
    returns (replies: seq<Backend.BackendMessage>)
    requires forall c :: c in store.statements ==> store.statements[c].refs > 0
    modifies client, store
    ensures (client.names, store.statements) == old(Absorb(client.names, store.statements, a))
    ensures replies == SyntheticReplies(a, status)
    ensures a.CloseOne? ==> replies == [Backend.CloseComplete]
    ensures !a.CloseOne? ==>
              && |replies| == 2
              && replies[0].CommandComplete? && Spells(replies[0].tag, "DEALLOCATE")
              && replies[1] == Backend.ReadyForQuery(status)
  {
    match a {
      case CloseOne(name) =>
        client.Remove(name, store);
        return [Backend.CloseComplete];
      case Deallocate(name) =>
        client.Remove(name, store);
      case DeallocateAll =>
        client.ReleaseAll(store);
    }
    replies := [Backend.CommandComplete(DEALLOCATE_TAG)];
    replies := replies + [Backend.ReadyForQuery(status)];
  }
}
