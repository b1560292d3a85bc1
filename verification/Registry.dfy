/**
  The instance registry of the RPC dispatcher: objects by class id, one shared
  object per singleton key, and the class ids that are aliases of a singleton.
 */
module Registry {
  import opened Common

  type Id = nat
  type Key = nat
  type Object = nat

  /** The three dictionaries, and the number of objects made so far. */
  datatype Db = Db(classes: map<Id, Object>, singles: map<Key, Object>, alias: map<Id, Key>, made: nat)

  const Empty := Db(map[], map[], map[], 0)

  datatype Error = Duplicate | NotFound | FactoryRaised

  // ---------------------------------------------------------------- the lock-protected sections

  function AddClass(d: Db, o: Object, id: Id): Db {
    if id in d.classes then d else d.(classes := d.classes[id := o])
  }

  function DelEntry(d: Db, id: Id): Db {
    if id in d.classes then d.(classes := d.classes - {id}, alias := d.alias - {id}) else d
  }

  /** get_or_create_singleton_instance when the factory succeeds. */
  function GetOrCreate(d: Db, key: Key): Db {
    if key in d.singles then d else d.(singles := d.singles[key := d.made], made := d.made + 1)
  }

  function Aliases(d: Db, key: Key): set<Id> {
    set id | id in d.alias && d.alias[id] == key
  }

  function Evict(d: Db, key: Key): Db {
    d.(singles := d.singles - {key}, classes := d.classes - Aliases(d, key), alias := d.alias - Aliases(d, key))
  }

  function Bind(d: Db, id: Id, key: Key, o: Object): Db {
    if id in d.classes then d else d.(classes := d.classes[id := o], alias := d.alias[id := key])
  }

  datatype Section =
    | DoAdd(o: Object, id: Id)
    | DoDel(id: Id)
    | DoCreate(key: Key)
    | DoEvict(key: Key)
    | DoBind(id: Id, key: Key, o: Object)

  function Apply(d: Db, t: Section): Db {
    match t
    case DoAdd(o, id) => AddClass(d, o, id)
    case DoDel(id) => DelEntry(d, id)
    case DoCreate(key) => GetOrCreate(d, key)
    case DoEvict(key) => Evict(d, key)
    case DoBind(id, key, o) => Bind(d, id, key, o)
  }

  function ApplyAll(d: Db, ts: seq<Section>): Db
    decreases |ts|
  {
    if ts == [] then d else ApplyAll(Apply(d, ts[0]), ts[1..])
  }

  /** However the sections of different threads interleave, whenever the locks are
      free every alias id is a class id. */
  lemma {:induction false} AliasesAreClasses(d: Db, ts: seq<Section>)
    requires d.alias.Keys <= d.classes.Keys
    ensures ApplyAll(d, ts).alias.Keys <= ApplyAll(d, ts).classes.Keys
    decreases |ts|
  {
    if ts != [] {
      AliasesAreClasses(Apply(d, ts[0]), ts[1..]);
    }
  }

  // ---------------------------------------------------------------- whole RPCs, one at a time

  datatype Mode = Singleton | PerConnection | DirectoryService(o: Object)

  datatype Rpc =
    | Instantiate(mode: Mode, id: Id, key: Key, ok: bool)
    | Destroy(mode: Mode, id: Id)
    | ShutdownService(key: Key)

  function Dispatch(d: Db, r: Rpc): Db {
    match r
    case Instantiate(Singleton, id, key, ok) =>
      if key !in d.singles && !ok then d
      else var d1 := GetOrCreate(d, key); Bind(d1, id, key, d1.singles[key])
    case Instantiate(PerConnection, id, _, ok) =>
      if id in d.classes || !ok then d else AddClass(d, d.made, id).(made := d.made + 1)
    case Instantiate(DirectoryService(o), id, _, _) => AddClass(d, o, id)
    case Destroy(_, id) => DelEntry(d, id)
    case ShutdownService(key) => Evict(d, key)
  }

  function DispatchAll(d: Db, rs: seq<Rpc>): Db
    decreases |rs|
  {
    if rs == [] then d else DispatchAll(Dispatch(d, rs[0]), rs[1..])
  }

  /** Every alias of a key resolves to the object stored for the key, and
      different keys hold different objects. */
  predicate Consistent(d: Db) {
    && (forall id :: id in d.alias ==>
          id in d.classes && d.alias[id] in d.singles && d.classes[id] == d.singles[d.alias[id]])
    && (forall k :: k in d.singles ==> d.singles[k] < d.made)
    && (forall j, k :: j in d.singles && k in d.singles && j != k ==> d.singles[j] != d.singles[k])
  }

  lemma DispatchConsistent(d: Db, r: Rpc)
    requires Consistent(d)
    ensures Consistent(Dispatch(d, r))
  {
    match r
    case Instantiate(Singleton, id, key, ok) =>
      CreateConsistent(d, key);
      BindConsistent(GetOrCreate(d, key), id, key);
    case Instantiate(PerConnection, _, _, _) =>
    case Instantiate(DirectoryService(_), _, _, _) =>
    case Destroy(_, id) =>
    case ShutdownService(key) => EvictConsistent(d, key);
  }

  lemma CreateConsistent(d: Db, key: Key)
    requires Consistent(d)
    ensures Consistent(GetOrCreate(d, key)) && key in GetOrCreate(d, key).singles
  {
  }

  lemma BindConsistent(d: Db, id: Id, key: Key)
    requires Consistent(d) && key in d.singles
    ensures Consistent(Bind(d, id, key, d.singles[key]))
  {
  }

  lemma EvictConsistent(d: Db, key: Key)
    requires Consistent(d)
    ensures Consistent(Evict(d, key))
  {
  }

  lemma {:induction false} DispatchAllConsistent(d: Db, rs: seq<Rpc>)
    requires Consistent(d)
    ensures Consistent(DispatchAll(d, rs))
    decreases |rs|
  {
    if rs != [] {
      DispatchConsistent(d, rs[0]);
      DispatchAllConsistent(Dispatch(d, rs[0]), rs[1..]);
    }
  }

  /** What a method call with this class id is dispatched to. */
  function Resolve(d: Db, id: Id): Result<Object, Error> {
    if id in d.classes then Ok(d.classes[id]) else Err(NotFound)
  }

  /** After any sequence of RPCs, two aliases of one key resolve to the same
      shared object; destroying one leaves the other, and the object, in place. */
  lemma AliasesShareOneObject(rs: seq<Rpc>, a: Id, b: Id, mode: Mode)
    requires var d := DispatchAll(Empty, rs); a in d.alias && b in d.alias && a != b && d.alias[a] == d.alias[b]
    ensures var d := DispatchAll(Empty, rs);
            var d' := Dispatch(d, Destroy(mode, a));
            && d.alias[a] in d.singles && Resolve(d, a) == Resolve(d, b) == Ok(d.singles[d.alias[a]])
            && Resolve(d', a) == Err(NotFound) && Resolve(d', b) == Resolve(d, b)
            && b in d'.alias && d'.singles == d.singles
  {
    DispatchAllConsistent(Empty, rs);
  }

  /** After an eviction no alias resolves to the evicted object, now or - the
      factory makes a new one - after any later RPCs; ids that were not aliases
      of the key resolve as before. */
  lemma EvictionLeavesNoAlias(rs: seq<Rpc>, key: Key, later: seq<Rpc>, id: Id)
    requires key in DispatchAll(Empty, rs).singles
    ensures var d := DispatchAll(Empty, rs);
            var gone := d.singles[key];
            var d' := Dispatch(d, ShutdownService(key));
            var after := DispatchAll(d', later);
            && (id in after.alias ==> Resolve(after, id).Ok? && Resolve(after, id) != Ok(gone))
            && (!(id in d.alias && d.alias[id] == key) ==> Resolve(d', id) == Resolve(d, id))
  {
    var d := DispatchAll(Empty, rs);
    DispatchAllConsistent(Empty, rs);
    var d' := Dispatch(d, ShutdownService(key));
    DispatchConsistent(d, ShutdownService(key));
    NeverRemade(d', d.singles[key], later);
    DispatchAllConsistent(d', later);
  }

  predicate Unheld(d: Db, o: Object) {
    o < d.made && forall k :: k in d.singles ==> d.singles[k] != o
  }

  lemma StaysUnheld(d: Db, o: Object, r: Rpc)
    requires Unheld(d, o)
    ensures Unheld(Dispatch(d, r), o)
  {
  }

  lemma {:induction false} NeverRemade(d: Db, o: Object, rs: seq<Rpc>)
    requires Unheld(d, o)
    ensures Unheld(DispatchAll(d, rs), o)
    decreases |rs|
  {
    if rs != [] {
      StaysUnheld(d, o, rs[0]);
      NeverRemade(Dispatch(d, rs[0]), o, rs[1..]);
    }
  }

  // ---------------------------------------------------------------- what an RPC does

  /** What the registry says about a class id: its object, and whose alias it is. */
  function Entry(d: Db, id: Id): (Result<Object, Error>, Option<Key>) {
    (Resolve(d, id), if id in d.alias then Some(d.alias[id]) else None)
  }

  predicate OthersKept(d: Db, d': Db, id: Id) {
    && (forall j :: j in d.classes.Keys + d'.classes.Keys && j != id ==> Resolve(d', j) == Resolve(d, j))
    && (forall j :: j in d.alias.Keys + d'.alias.Keys && j != id ==> Entry(d', j).1 == Entry(d, j).1)
  }

  /** Instantiating a singleton: the key's one object, made if there is none, is
      what a new class id resolves to; a known id and a raising factory change
      nothing about ids. */
  lemma SingletonBound(d: Db, id: Id, key: Key, ok: bool)
    requires d.alias.Keys <= d.classes.Keys
    ensures var d' := Dispatch(d, Instantiate(Singleton, id, key, ok));
            var shared := if key in d.singles then d.singles[key] else d.made;
            && (key in d.singles || ok ==>
                  && d'.singles == d.singles[key := shared]
                  && Entry(d', id) == if id in d.classes then Entry(d, id) else (Ok(shared), Some(key)))
            && (key !in d.singles && !ok ==> d' == d)
            && OthersKept(d, d', id)
  {
  }

  /** Instantiating per connection: a new class id gets an object of its own. */
  lemma OwnInstance(d: Db, id: Id, key: Key, ok: bool)
    requires d.alias.Keys <= d.classes.Keys
    ensures var d' := Dispatch(d, Instantiate(PerConnection, id, key, ok));
            && (id in d.classes || !ok ==> d' == d)
            && (id !in d.classes && ok ==> Entry(d', id) == (Ok(d.made), None) && d'.made == d.made + 1)
            && d'.singles == d.singles && OthersKept(d, d', id)
  {
  }

  /** The directory process hands out its own object under any new id. */
  lemma DirectoryInstance(d: Db, o: Object, id: Id, key: Key, ok: bool)
    requires d.alias.Keys <= d.classes.Keys
    ensures var d' := Dispatch(d, Instantiate(DirectoryService(o), id, key, ok));
            && Entry(d', id) == (if id in d.classes then Entry(d, id) else (Ok(o), None))
            && d'.singles == d.singles && d'.made == d.made && OthersKept(d, d', id)
  {
  }

  /** Destroying forgets the id, its alias included, and no object another id or
      key still names. */
  lemma DestroyForgets(d: Db, mode: Mode, id: Id)
    requires d.alias.Keys <= d.classes.Keys
    ensures var d' := Dispatch(d, Destroy(mode, id));
            && Entry(d', id) == (Err(NotFound), None)
            && d'.singles == d.singles && d'.made == d.made && OthersKept(d, d', id)
  {
  }

  /** Shutting a service down forgets its object and every alias of it, and
      nothing else. */
  lemma ShutdownForgets(d: Db, key: Key, id: Id)
    ensures var d' := Dispatch(d, ShutdownService(key));
            && d'.singles == d.singles - {key} && d'.made == d.made
            && Entry(d', id) == if Entry(d, id).1 == Some(key) then (Err(NotFound), None) else Entry(d, id)
  {
  }

  // ---------------------------------------------------------------- interleaved sections

  /** Binding an alias keeps the registry consistent exactly when the id is taken
      anyway or the object is the one stored for the key at that moment. */
  lemma BindConsistentIff(d: Db, id: Id, key: Key, o: Object)
    requires Consistent(d)
    ensures Consistent(Bind(d, id, key, o)) <==> id in d.classes || (key in d.singles && d.singles[key] == o)
  {
    if id !in d.classes {
      var d' := Bind(d, id, key, o);
      assert id in d'.alias && d'.alias[id] == key && d'.classes[id] == o;
    }
  }

  /** The section does not bind an object that its key no longer stores. */
  predicate BindsCurrent(d: Db, t: Section) {
    t.DoBind? ==> t.id in d.classes || (t.key in d.singles && d.singles[t.key] == t.o)
  }

  predicate AlwaysBindsCurrent(d: Db, ts: seq<Section>)
    decreases |ts|
  {
    ts == [] || (BindsCurrent(d, ts[0]) && AlwaysBindsCurrent(Apply(d, ts[0]), ts[1..]))
  }

  /** The registry is consistent after every section. */
  predicate StaysConsistent(d: Db, ts: seq<Section>)
    decreases |ts|
  {
    Consistent(d) && (ts == [] || StaysConsistent(Apply(d, ts[0]), ts[1..]))
  }

  lemma SectionConsistentIff(d: Db, t: Section)
    requires Consistent(d)
    ensures Consistent(Apply(d, t)) <==> BindsCurrent(d, t)
  {
    match t
    case DoAdd(o, id) =>
    case DoDel(id) =>
    case DoCreate(key) => CreateConsistent(d, key);
    case DoEvict(key) => EvictConsistent(d, key);
    case DoBind(id, key, o) => BindConsistentIff(d, id, key, o);
  }

  /** However the sections of different threads interleave, every alias resolves
      to the object of its key after each of them if and only if each binding
      that takes effect binds the object its key stores at that moment. */
  lemma {:induction false} InterleavingConsistentIff(d: Db, ts: seq<Section>)
    requires Consistent(d)
    ensures StaysConsistent(d, ts) <==> AlwaysBindsCurrent(d, ts)
    decreases |ts|
  {
    if ts != [] {
      SectionConsistentIff(d, ts[0]);
      if Consistent(Apply(d, ts[0])) { InterleavingConsistentIff(Apply(d, ts[0]), ts[1..]); }
    }
  }

  /** An eviction between the creation of a singleton and the binding of its alias
      is the case that fails: for every registry, key and unused id it leaves an
      alias whose key stores nothing. */
  lemma InterleavedEvictionLeavesAlias(d: Db, id: Id, key: Key)
    requires Consistent(d) && id !in d.classes
    ensures var d1 := Apply(d, DoCreate(key));
            var d3 := Apply(Apply(d1, DoEvict(key)), DoBind(id, key, d1.singles[key]));
            id in d3.alias && d3.alias[id] == key && key !in d3.singles && !Consistent(d3)
  {
    CreateConsistent(d, key);
    EvictConsistent(GetOrCreate(d, key), key);
    var d2 := Evict(GetOrCreate(d, key), key);
    assert id !in d2.classes;
    BindConsistentIff(d2, id, key, GetOrCreate(d, key).singles[key]);
  }

  // ---------------------------------------------------------------- the registry

  class InstanceDb {
    var classes: map<Id, Object>
    var singles: map<Key, Object>
    var alias: map<Id, Key>
    var made: nat

    function View(): Db
      reads this
    {
      Db(classes, singles, alias, made)
    }

    constructor ()
      ensures View() == Empty
    {
      classes, singles, alias, made := map[], map[], map[], 0;
    }

    method AddToClassDb(o: Object, id: Id) returns (r: Result<(), Error>)
      modifies this
      ensures View() == AddClass(old(View()), o, id) && (r.Err? <==> id in old(classes))
    {
      if id in classes { return Err(Duplicate); }
      classes := classes[id := o];
      return Ok(());
    }

    method GetClassFromDb(id: Id) returns (r: Result<Object, Error>)
      ensures r == Resolve(View(), id)
    {
      if id in classes { return Ok(classes[id]); }
      return Err(NotFound);
    }

    method DelEntryFromClassDb(id: Id)
      modifies this
      ensures View() == DelEntry(old(View()), id)
    {
      if id in classes {
        classes := classes - {id};
        alias := alias - {id};
      }
    }

    /** The factory runs only when the key is not there, and may raise. */
    method GetOrCreateSingleton(key: Key, ok: bool) returns (r: Result<Object, Error>)
      modifies this
      ensures r.Err? <==> key !in old(singles) && !ok
      ensures View() == if r.Err? then old(View()) else GetOrCreate(old(View()), key)
      ensures r.Ok? ==> key in singles && r.value == singles[key]
    {
      if key in singles { return Ok(singles[key]); }
      if !ok { return Err(FactoryRaised); }
      var o := made;
      made := made + 1;
      singles := singles[key := o];
      return Ok(o);
    }

    method EvictSingleton(key: Key) returns (r: Option<Object>)
      modifies this
      ensures View() == Evict(old(View()), key)
      ensures r == if key in old(singles) then Some(old(singles)[key]) else None
    {
      r := if key in singles then Some(singles[key]) else None;
      singles := singles - {key};
      var ids := set id | id in alias && alias[id] == key;
      assert ids == Aliases(old(View()), key);
      var todo := ids;
      while todo != {}
        invariant todo <= ids && alias == old(alias) - (ids - todo) && classes == old(classes) - (ids - todo)
        invariant singles == old(singles) - {key} && made == old(made)
        decreases |todo|
      {
        var id :| id in todo;
        todo := todo - {id};
        alias := alias - {id};
        classes := classes - {id};
      }
      assert ids - todo == ids;
    }

    method BindAlias(id: Id, key: Key, o: Object) returns (r: Result<(), Error>)
      modifies this
      ensures View() == Bind(old(View()), id, key, o) && (r.Err? <==> id in old(classes))
    {
      if id in classes { return Err(Duplicate); }
      classes := classes[id := o];
      alias := alias[id := key];
      return Ok(());
    }

    /** The instantiate and destroy branches of handle_rpc_req. */
    method HandleRpc(rpc: Rpc) returns (r: Result<(), Error>)
      modifies this
      ensures View() == Dispatch(old(View()), rpc)
      ensures r.Err? <==> match rpc
                          case Instantiate(Singleton, id, key, ok) => key !in old(singles) && !ok
                          case Instantiate(PerConnection, id, _, ok) => id !in old(classes) && !ok
                          case Instantiate(DirectoryService(_), _, _, _) => false
                          case Destroy(mode, id) => !mode.DirectoryService? && id !in old(classes)
                          case ShutdownService(_) => false
    {
      r := Ok(());
      match rpc {
        case Instantiate(Singleton, id, key, ok) =>
          var o := GetOrCreateSingleton(key, ok);
          if o.Err? { return Err(o.error); }
          if id !in classes { r := BindAlias(id, key, o.value); }
        case Instantiate(PerConnection, id, key, ok) =>
          var found := GetClassFromDb(id);
          if found.Ok? { return; }
          if !ok { return Err(FactoryRaised); }
          var o := made;
          made := made + 1;
          r := AddToClassDb(o, id);
        case Instantiate(DirectoryService(o), id, key, ok) =>
          if id !in classes { r := AddToClassDb(o, id); }
        case Destroy(mode, id) =>
          if !mode.DirectoryService? && id !in classes { return Err(NotFound); }
          DelEntryFromClassDb(id);
        case ShutdownService(key) =>
          var _ := EvictSingleton(key);
      }
    }
  }
}
