/**
 * The product store: an in-memory, insertion-ordered list of products mirrored, as one whole
 * value, under a single fixed key of the device's key-value storage (Capacitor Preferences).
 *
 * The JSON text that the storage actually holds is abstracted as an exact round trip: the
 * storage maps each key to the list that `JSON.parse` would give back for it.
 *
 * The first half states the store's operations as functions on a `Snapshot` (the list in memory
 * and the storage), with the lemmas about them; the second half is the service as a class whose
 * methods are proved to follow those functions.
 */
module ProductStore {
  import opened Wrappers
  import opened Products

  /** The one key the store reads and writes. */
  const STORAGE_KEY: string := "productos"

  type Storage = map<string, seq<Product>>

  /** The list in memory together with the whole key-value storage. */
  datatype Snapshot = Snapshot(productos: seq<Product>, storage: Storage)

  /** What loading yields: the stored list, or the empty list when the key is absent. */
  function Loaded(storage: Storage): seq<Product> {
    if STORAGE_KEY in storage then storage[STORAGE_KEY] else []
  }

  /** `cargarProductos`: replace the list in memory by what the storage holds. */
  function Load(s: Snapshot): Snapshot {
    s.(productos := Loaded(s.storage))
  }

  /** `obtenerProductos`: reload only when the list is empty, then return the list. */
  function List(s: Snapshot): (Snapshot, seq<Product>) {
    var t := if |s.productos| == 0 then Load(s) else s;
    (t, t.productos)
  }

  /** Make `ps` the list in memory and write it, whole, under the store's key. */
  function Persist(s: Snapshot, ps: seq<Product>): Snapshot {
    Snapshot(ps, s.storage[STORAGE_KEY := ps])
  }

  /** `agregarProducto`: append the fields stamped with the current time, then persist. */
  function Add(s: Snapshot, f: ProductFields, now: int): Snapshot {
    Persist(s, s.productos + [Stamped(now, f)])
  }

  /** `eliminarProducto`: drop every record with the id, then persist. */
  function Remove(s: Snapshot, id: int): Snapshot {
    Persist(s, Without(s.productos, id))
  }

  /** The storage holds, under the store's key, exactly the list in memory. */
  predicate Mirrored(s: Snapshot) {
    STORAGE_KEY in s.storage && s.storage[STORAGE_KEY] == s.productos
  }

  /** Reloading would give back the list in memory. */
  predicate Consistent(s: Snapshot) {
    Loaded(s.storage) == s.productos
  }

  /** `s` and `t` agree on every storage key other than the store's own. */
  ghost predicate SameOtherKeys(s: Storage, t: Storage) {
    forall k :: k != STORAGE_KEY ==> (k in s <==> k in t) && (k in s ==> s[k] == t[k])
  }

  lemma LoadIsConsistent(s: Snapshot)
    ensures Consistent(Load(s)) && Load(s).storage == s.storage
    ensures Mirrored(s) ==> Load(s) == s
  {
  }

  /** A non-empty list is returned as it is, whatever the storage holds; an empty one is
      reloaded first and the loaded list is returned. The storage is never changed. */
  lemma ListSpec(s: Snapshot)
    ensures List(s).0.storage == s.storage
    ensures List(s).1 == List(s).0.productos
    ensures |s.productos| > 0 ==> List(s).0 == s
    ensures |s.productos| == 0 ==> List(s).1 == Loaded(s.storage)
  {
  }

  /** Adding grows the list by exactly the stamped record at the end, keeps every earlier record
      at its position, mirrors the list into storage and leaves every other key alone. */
  lemma AddSpec(s: Snapshot, f: ProductFields, now: int)
    ensures var t := Add(s, f, now);
      |t.productos| == |s.productos| + 1
      && (forall i :: 0 <= i < |s.productos| ==> t.productos[i] == s.productos[i])
      && t.productos[|s.productos|].id == now
      && Unstamped(t.productos[|s.productos|]) == f
      && Mirrored(t) && SameOtherKeys(s.storage, t.storage)
  {
  }

  /** Removing leaves no record with the id, keeps the other records in order and with their
      multiplicities, is the identity on the list when the id is absent, mirrors the list into
      storage and leaves every other key alone. */
  lemma RemoveSpec(s: Snapshot, id: int)
    ensures var t := Remove(s, id);
      !HasId(t.productos, id)
      && IsSubsequence(t.productos, s.productos)
      && (forall p: Product :: p.id != id ==> multiset(t.productos)[p] == multiset(s.productos)[p])
      && (!HasId(s.productos, id) ==> t.productos == s.productos)
      && Mirrored(t) && SameOtherKeys(s.storage, t.storage)
  {
    WithoutIsSubsequence(s.productos, id);
    if !HasId(s.productos, id) {
      WithoutAbsent(s.productos, id);
    }
  }

  /** A reload right after a write gives back exactly what was written. */
  lemma ReloadAfterWrite(s: Snapshot, f: ProductFields, now: int, id: int)
    ensures Load(Add(s, f, now)) == Add(s, f, now)
    ensures Load(Remove(s, id)) == Remove(s, id)
  {
  }

  /** Removing an id and then listing never returns a record with that id. */
  lemma RemoveThenList(s: Snapshot, id: int)
    ensures !HasId(List(Remove(s, id)).1, id)
    ensures List(Remove(s, id)).1 == Without(s.productos, id)
  {
  }

  /** Adding and then listing returns the earlier records followed by one record that carries
      exactly the added title, description, price and photo. */
  lemma AddThenList(s: Snapshot, f: ProductFields, now: int)
    ensures var r := List(Add(s, f, now)).1;
      |r| == |s.productos| + 1 && r[..|s.productos|] == s.productos
      && r[|s.productos|].id == now && Unstamped(r[|s.productos|]) == f
  {
    var t := Add(s, f, now);
    assert |t.productos| > 0;
    assert (s.productos + [Stamped(now, f)])[..|s.productos|] == s.productos;
  }

  /** One call on the store. */
  datatype Op =
    | LoadOp
    | ListOp
    | AddOp(fields: ProductFields, now: int)
    | RemoveOp(id: int)

  function Step(s: Snapshot, op: Op): Snapshot {
    match op
    case LoadOp => Load(s)
    case ListOp => List(s).0
    case AddOp(f, now) => Add(s, f, now)
    case RemoveOp(id) => Remove(s, id)
  }

  /** The state after a sequence of calls, made one after the other. */
  function Run(s: Snapshot, ops: seq<Op>): Snapshot
    decreases |ops|
  {
    if ops == [] then s else Run(Step(s, ops[0]), ops[1..])
  }

  /** The add calls carry timestamps that start at `t` or later and strictly increase. */
  predicate ClockFrom(ops: seq<Op>, t: int)
    decreases |ops|
  {
    if ops == [] then true
    else match ops[0]
      case AddOp(_, now) => t <= now && ClockFrom(ops[1..], now + 1)
      case _ => ClockFrom(ops[1..], t)
  }

  /** Once memory and storage agree, they agree after any sequence of calls. */
  lemma {:induction false} RunKeepsMirrored(s: Snapshot, ops: seq<Op>)
    requires Mirrored(s)
    ensures Mirrored(Run(s, ops))
    decreases |ops|
  {
    if ops != [] {
      var t := Step(s, ops[0]);
      assert Mirrored(t) by {
        if ops[0].ListOp? { assert |s.productos| == 0 ==> Loaded(s.storage) == s.productos; }
      }
      RunKeepsMirrored(t, ops[1..]);
    }
  }

  /** Any sequence of calls that ends with an add or a remove leaves memory and storage in
      agreement, whatever state it started from. */
  lemma RunEndingInWriteIsMirrored(s: Snapshot, ops: seq<Op>, last: Op)
    requires last.AddOp? || last.RemoveOp?
    ensures Mirrored(Run(s, ops + [last]))
  {
    RunSplit(s, ops, [last]);
  }

  lemma {:induction false} RunSplit(s: Snapshot, a: seq<Op>, b: seq<Op>)
    ensures Run(s, a + b) == Run(Run(s, a), b)
    decreases |a|
  {
    if a == [] {
      assert a + b == b;
    } else {
      assert (a + b)[0] == a[0];
      assert (a + b)[1..] == a[1..] + b;
      RunSplit(Step(s, a[0]), a[1..], b);
    }
  }

  /** A reload never brings back something other than the list in memory: consistency is kept
      by every call. */
  lemma {:induction false} RunKeepsConsistent(s: Snapshot, ops: seq<Op>)
    requires Consistent(s)
    ensures Consistent(Run(s, ops))
    decreases |ops|
  {
    if ops != [] {
      RunKeepsConsistent(Step(s, ops[0]), ops[1..]);
    }
  }

  /** Ids stay distinct across any sequence of calls whose adds happen at strictly increasing
      times later than every id already present. */
  lemma {:induction false} RunKeepsIdsDistinct(s: Snapshot, ops: seq<Op>, t: int)
    requires Consistent(s) && DistinctIds(s.productos) && IdsBelow(s.productos, t)
    requires ClockFrom(ops, t)
    ensures DistinctIds(Run(s, ops).productos)
    decreases |ops|
  {
    if ops != [] {
      var next := Step(s, ops[0]);
      match ops[0]
      case LoadOp =>
        RunKeepsIdsDistinct(next, ops[1..], t);
      case ListOp =>
        RunKeepsIdsDistinct(next, ops[1..], t);
      case AddOp(f, now) =>
        StampAfterIdsKeepsDistinct(s.productos, now, f);
        assert IdsBelow(next.productos, now + 1);
        RunKeepsIdsDistinct(next, ops[1..], now + 1);
      case RemoveOp(id) =>
        WithoutKeepsDistinct(s.productos, id);
        assert IdsBelow(next.productos, t) by {
          forall i | 0 <= i < |next.productos| ensures next.productos[i].id < t {
            var p := next.productos[i];
            assert multiset(next.productos)[p] > 0;
            assert p in s.productos;
          }
        }
        RunKeepsIdsDistinct(next, ops[1..], t);
    }
  }

  /** The key-value storage (Capacitor Preferences) as the store sees it. */
  class Preferences {
    var values: Storage

    constructor(initial: Storage)
      ensures values == initial
    {
      values := initial;
    }

    /** `Preferences.get`: the stored value, or nothing when the key is absent. */
    method Get(key: string) returns (value: Option<seq<Product>>)
      ensures value.Some? <==> key in values
      ensures value.Some? ==> value.value == values[key]
    {
      value := if key in values then Some(values[key]) else None;
    }

    /** `Preferences.set`: overwrite one key. */
    method Set(key: string, value: seq<Product>)
      modifies this
      ensures values == old(values)[key := value]
    {
      values := values[key := value];
    }
  }

  /** The product service: the list in memory, with the storage it mirrors. */
  class ProductService {
    const prefs: Preferences
    var productos: seq<Product>

    function State(): Snapshot
      reads this, prefs
    {
      Snapshot(productos, prefs.values)
    }

    /** Creating the service loads the list (the load is taken to complete here). */
    constructor(prefs: Preferences)
      ensures this.prefs == prefs && prefs.values == old(prefs.values)
      ensures productos == Loaded(prefs.values)
    {
      this.prefs := prefs;
      productos := [];
      new;
      CargarProductos();
    }

    method CargarProductos()
      modifies this
      ensures State() == Load(old(State()))
      ensures Consistent(State())
    {
      var respuesta := prefs.Get(STORAGE_KEY);
      productos := if respuesta.Some? then respuesta.value else [];
    }

    method ObtenerProductos() returns (r: seq<Product>)
      modifies this
      ensures (State(), r) == List(old(State()))
    {
      if |productos| == 0 {
        CargarProductos();
      }
      r := productos;
    }

    method AgregarProducto(producto: ProductFields, now: int)
      modifies this, prefs
      ensures State() == Add(old(State()), producto, now)
      ensures Mirrored(State())
    {
      var productoNuevo := Stamped(now, producto);
      productos := productos + [productoNuevo];
      prefs.Set(STORAGE_KEY, productos);
    }

    method EliminarProducto(id: int)
      modifies this, prefs
      ensures State() == Remove(old(State()), id)
      ensures Mirrored(State())
    {
      productos := Without(productos, id);
      prefs.Set(STORAGE_KEY, productos);
    }
  }
}
