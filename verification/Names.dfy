/** The names of each client, and the counted references to statements. */
module Names {
  import opened Options
  import opened Lru
  import opened Connection

  datatype Entry = Entry(stmt: Stmt, refs: nat)

  type Store = map<Name, Entry>
  type NameMap = map<Name, Name>

  function AddRef(store: Store, canon: Name, stmt: Stmt): Store {
    if canon in store then store[canon := store[canon].(refs := store[canon].refs + 1)]
    else store[canon := Entry(stmt, 1)]
  }

  function Release(store: Store, canon: Name): Store {
    if canon !in store then store
    else
      var refs := if store[canon].refs == 0 then 0 else store[canon].refs - 1;
      if refs == 0 then store - {canon} else store[canon := store[canon].(refs := refs)]
  }

  /** The names and the store after a client Parse of `stmt` under `name`. */
  function Register(names: NameMap, store: Store, name: Name, canon: Name, stmt: Stmt): (NameMap, Store) {
    var names' := names[name := canon];
    if name in names && names[name] == canon then (names', store)
    else if name in names then (names', Release(AddRef(store, canon, stmt), names[name]))
    else (names', AddRef(store, canon, stmt))
  }

  function Remove(names: NameMap, store: Store, name: Name): (NameMap, Store) {
    if name in names then (names - {name}, Release(store, names[name])) else (names, store)
  }

  function NamesFor(names: NameMap, canon: Name): set<Name> {
    set n | n in names && names[n] == canon
  }

  function Count(names: NameMap, canon: Name): nat {
    |NamesFor(names, canon)|
  }

  /** The store after every reference of `names` is released. */
  function ReleaseAll(store: Store, names: NameMap): Store {
    map c | c in store && store[c].refs > Count(names, c) :: store[c].(refs := store[c].refs - Count(names, c))
  }

  lemma CountWithout(names: NameMap, n: Name, c: Name)
    requires n in names
    ensures Count(names, c) == Count(names - {n}, c) + (if names[n] == c then 1 else 0)
  {
    assert NamesFor(names - {n}, c) == NamesFor(names, c) - {n};
  }

  /** One release, then the rest: the order in which the references go does not matter. */
  lemma ReleaseAllStep(store: Store, names: NameMap, n: Name)
    requires n in names
    requires forall c :: c in store ==> store[c].refs > 0
    ensures ReleaseAll(store, names) == ReleaseAll(Release(store, names[n]), names - {n})
    ensures forall c :: c in Release(store, names[n]) ==> Release(store, names[n])[c].refs > 0
  {
    var rest, store' := names - {n}, Release(store, names[n]);
    forall c
      ensures Count(names, c) == Count(rest, c) + (if names[n] == c then 1 else 0)
    {
      CountWithout(names, n, c);
    }
    assert forall c :: c in ReleaseAll(store, names) <==> c in ReleaseAll(store', rest);
  }

  lemma ReleaseNone(store: Store, names: NameMap)
    requires names == map[]
    requires forall c :: c in store ==> store[c].refs > 0
    ensures ReleaseAll(store, names) == store
  {
    forall c
      ensures Count(names, c) == 0
    {
      assert NamesFor(names, c) <= names.Keys;
    }
  }

  // ---------------------------------------------------------------------
  // Exact reference counts
  // ---------------------------------------------------------------------

  /** The (client, name) pairs mapped to a canonical name. */
  ghost function Users(clients: map<nat, NameMap>, canon: Name): set<(nat, Name)> {
    set i, n | i in clients && n in clients[i] && clients[i][n] == canon :: (i, n)
  }

  function Refs(store: Store, canon: Name): nat {
    if canon in store then store[canon].refs else 0
  }

  /** No entry is left at zero, and every count is the number of pairs mapped to the name. */
  ghost predicate Exact(store: Store, clients: map<nat, NameMap>) {
    && (forall c :: c in store ==> store[c].refs > 0)
    && (forall c: Name :: Refs(store, c) == |Users(clients, c)|)
  }

  /** An entry exists exactly while some client maps a name to it, so the lookup for a
      resolved name never misses. */
  lemma ExactFinds(store: Store, clients: map<nat, NameMap>, canon: Name)
    requires Exact(store, clients)
    ensures canon in store <==> exists i, n :: i in clients && n in clients[i] && clients[i][n] == canon
  {
    var users := Users(clients, canon);
    if i, n :| i in clients && n in clients[i] && clients[i][n] == canon {
      assert (i, n) in users;
    } else {
      assert users == {};
    }
  }

  lemma UsersAfterBind(clients: map<nat, NameMap>, i: nat, name: Name, canon: Name, c: Name)
    requires i in clients
    ensures |Users(clients[i := clients[i][name := canon]], c)|
         == |Users(clients, c)|
          + (if c == canon then 1 else 0)
          - (if name in clients[i] && clients[i][name] == c then 1 else 0)
  {
    var names' := clients[i][name := canon];
    var before, after := Users(clients, c), Users(clients[i := names'], c);
    assert (i, name) in before <==> name in clients[i] && clients[i][name] == c;
    forall u
      ensures u in after <==> if u == (i, name) then c == canon else u in before
    {
      assert u in after <==> u.0 in clients && u.1 in clients[i := names'][u.0] && clients[i := names'][u.0][u.1] == c;
    }
    if c == canon {
      assert after == before + {(i, name)};
    } else {
      assert after == before - {(i, name)};
    }
  }

  lemma UsersAfterUnbind(clients: map<nat, NameMap>, i: nat, name: Name, c: Name)
    requires i in clients && name in clients[i]
    ensures |Users(clients[i := clients[i] - {name}], c)|
         == |Users(clients, c)| - (if clients[i][name] == c then 1 else 0)
  {
    var before, after := Users(clients, c), Users(clients[i := clients[i] - {name}], c);
    assert (i, name) in before <==> clients[i][name] == c;
    assert after == before - {(i, name)};
  }

  lemma RegisterKeepsExact(store: Store, clients: map<nat, NameMap>, i: nat, name: Name, canon: Name, stmt: Stmt)
    requires Exact(store, clients) && i in clients
    ensures var (names', store') := Register(clients[i], store, name, canon, stmt);
            Exact(store', clients[i := names'])
  {
    var (names', store') := Register(clients[i], store, name, canon, stmt);
    forall c: Name
      ensures Refs(store', c) == |Users(clients[i := names'], c)|
    {
      UsersAfterBind(clients, i, name, canon, c);
    }
  }

  lemma RemoveKeepsExact(store: Store, clients: map<nat, NameMap>, i: nat, name: Name)
    requires Exact(store, clients) && i in clients
    ensures var (names', store') := Remove(clients[i], store, name);
            Exact(store', clients[i := names'])
  {
    var (names', store') := Remove(clients[i], store, name);
    if name in clients[i] {
      forall c: Name
        ensures Refs(store', c) == |Users(clients[i := names'], c)|
      {
        UsersAfterUnbind(clients, i, name, c);
      }
    } else {
      assert clients[i := names'] == clients;
    }
  }

  lemma {:induction false} ReleaseAllKeepsExact(store: Store, clients: map<nat, NameMap>, i: nat)
    requires Exact(store, clients) && i in clients
    ensures Exact(ReleaseAll(store, clients[i]), clients[i := map[]])
    decreases |clients[i].Keys|
  {
    if clients[i] == map[] {
      ReleaseNone(store, clients[i]);
      assert clients[i := map[]] == clients;
    } else {
      var n :| n in clients[i];
      RemoveKeepsExact(store, clients, i, n);
      ReleaseAllStep(store, clients[i], n);
      var (names', store') := Remove(clients[i], store, n);
      assert names'.Keys == clients[i].Keys - {n};
      var clients' := clients[i := names'];
      ReleaseAllKeepsExact(store', clients', i);
      assert clients'[i := map[]] == clients[i := map[]];
    }
  }

  /** A client that comes without names, or goes after releasing them, changes no count. */
  lemma EmptyClientKeepsExact(store: Store, clients: map<nat, NameMap>, i: nat)
    requires Exact(store, clients)
    ensures i !in clients ==> Exact(store, clients[i := map[]])
    ensures i in clients && clients[i] == map[] ==> Exact(store, clients - {i})
  {
    forall c: Name
      ensures i !in clients ==> Users(clients[i := map[]], c) == Users(clients, c)
      ensures i in clients && clients[i] == map[] ==> Users(clients - {i}, c) == Users(clients, c)
    {
    }
  }
}
