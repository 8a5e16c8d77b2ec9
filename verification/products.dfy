/**
 * The product record and the list operations the product store applies to it.
 *
 * The record's declaration file is not part of this model; its shape is rebuilt from how the
 * service and the pages use it: a numeric id, a title, a description, a price, the name of the
 * photo file, and an optional display string that the list view fills in.
 */
module Products {
  import opened Wrappers

  /** One stored product. Prices are integers here (see README, "Left out"). */
  datatype Product = Product(
    id: int,
    titulo: string,
    descripcion: string,
    precio: int,
    rutaFoto: string,
    rutaFotoBase64: Option<string>)

  /** What `agregarProducto` receives: a product without its id (`Omit<Product, 'id'>`). */
  datatype ProductFields = ProductFields(
    titulo: string,
    descripcion: string,
    precio: int,
    rutaFoto: string,
    rutaFotoBase64: Option<string>)

  /** The fields of a product, with its id dropped. */
  function Unstamped(p: Product): ProductFields {
    ProductFields(p.titulo, p.descripcion, p.precio, p.rutaFoto, p.rutaFotoBase64)
  }

  /** `{ id: now, ...fields }`: a new record whose id is the given timestamp and whose other
      fields are copied unchanged. Dropping the id again gives back exactly the fields. */
  function Stamped(now: int, f: ProductFields): (p: Product)
    ensures p.id == now
    ensures Unstamped(p) == f
  {
    Product(now, f.titulo, f.descripcion, f.precio, f.rutaFoto, f.rutaFotoBase64)
  }

  predicate HasId(ps: seq<Product>, id: int) {
    exists i :: 0 <= i < |ps| && ps[i].id == id
  }

  /** No two records of the list share an id. */
  predicate DistinctIds(ps: seq<Product>) {
    forall i, j :: 0 <= i < j < |ps| ==> ps[i].id != ps[j].id
  }

  /** Every id in the list is smaller than `t`. */
  predicate IdsBelow(ps: seq<Product>, t: int) {
    forall i :: 0 <= i < |ps| ==> ps[i].id < t
  }

  /** `ps.filter(p => p.id !== id)`: every record with that id is dropped, every other record is
      kept as often as it occurs. */
  function Without(ps: seq<Product>, id: int): (r: seq<Product>)
    ensures forall p :: multiset(r)[p] == if p.id == id then 0 else multiset(ps)[p]
    ensures !HasId(r, id)
    ensures |r| <= |ps|
  {
    if ps == [] then []
    else
      assert ps == [ps[0]] + ps[1..];
      if ps[0].id == id then Without(ps[1..], id)
      else [ps[0]] + Without(ps[1..], id)
  }

  /** `a` is `b` with some elements deleted, the rest in their original order. */
  predicate IsSubsequence(a: seq<Product>, b: seq<Product>)
    decreases |b|
  {
    if a == [] then true
    else if b == [] then false
    else if a[0] == b[0] then IsSubsequence(a[1..], b[1..])
    else IsSubsequence(a, b[1..])
  }

  /** Filtering keeps the remaining records in their original relative order. */
  lemma {:induction false} WithoutIsSubsequence(ps: seq<Product>, id: int)
    ensures IsSubsequence(Without(ps, id), ps)
  {
    if ps != [] {
      WithoutIsSubsequence(ps[1..], id);
      var r := Without(ps, id);
      if ps[0].id != id {
        assert r[0] == ps[0] && r[1..] == Without(ps[1..], id);
      } else if r != [] {
        assert r[0] in r;
        assert r[0] != ps[0];
      }
    }
  }

  /** Filtering an id that no record carries leaves the list unchanged. */
  lemma {:induction false} WithoutAbsent(ps: seq<Product>, id: int)
    requires !HasId(ps, id)
    ensures Without(ps, id) == ps
  {
    if ps != [] {
      assert ps[0].id != id;
      assert !HasId(ps[1..], id) by {
        forall i | 0 <= i < |ps[1..]| ensures ps[1..][i].id != id {
          assert ps[1..][i] == ps[i + 1];
        }
      }
      WithoutAbsent(ps[1..], id);
    }
  }

  /** Filtering twice by the same id is the same as filtering once. */
  lemma WithoutIdempotent(ps: seq<Product>, id: int)
    ensures Without(Without(ps, id), id) == Without(ps, id)
  {
    WithoutAbsent(Without(ps, id), id);
  }

  /** Filtering works piecewise: the kept records of a prefix come before those of a suffix. */
  lemma {:induction false} WithoutAppend(a: seq<Product>, b: seq<Product>, id: int)
    ensures Without(a + b, id) == Without(a, id) + Without(b, id)
  {
    if a == [] {
      assert a + b == b;
    } else {
      var ab := a + b;
      assert ab[0] == a[0];
      assert ab[1..] == a[1..] + b;
      WithoutAppend(a[1..], b, id);
      if a[0].id == id {
        calc {
          Without(ab, id);
          Without(a[1..] + b, id);
          Without(a[1..], id) + Without(b, id);
          Without(a, id) + Without(b, id);
        }
      } else {
        calc {
          Without(ab, id);
          [a[0]] + Without(a[1..] + b, id);
          [a[0]] + (Without(a[1..], id) + Without(b, id));
          ([a[0]] + Without(a[1..], id)) + Without(b, id);
          Without(a, id) + Without(b, id);
        }
      }
    }
  }

  /** Every id left after filtering was already in the list. */
  lemma WithoutHasId(ps: seq<Product>, id: int, x: int)
    requires HasId(Without(ps, id), x)
    ensures HasId(ps, x)
  {
    var r := Without(ps, id);
    var i :| 0 <= i < |r| && r[i].id == x;
    assert multiset(r)[r[i]] > 0;
    assert r[i] in ps;
  }

  /** A record put in front of a list with distinct ids keeps them distinct when its own id is new. */
  lemma PrependDistinct(p: Product, ps: seq<Product>)
    requires DistinctIds(ps) && !HasId(ps, p.id)
    ensures DistinctIds([p] + ps)
  {
    var r := [p] + ps;
    forall i, j | 0 <= i < j < |r| ensures r[i].id != r[j].id {
      assert r[j] == ps[j - 1];
      if i > 0 {
        assert r[i] == ps[i - 1];
      }
    }
  }

  /** Filtering never introduces a duplicate id. */
  lemma {:induction false} WithoutKeepsDistinct(ps: seq<Product>, id: int)
    requires DistinctIds(ps)
    ensures DistinctIds(Without(ps, id))
  {
    if ps != [] {
      var tail := ps[1..];
      assert DistinctIds(tail) by {
        forall i, j | 0 <= i < j < |tail| ensures tail[i].id != tail[j].id {
          assert tail[i] == ps[i + 1] && tail[j] == ps[j + 1];
        }
      }
      WithoutKeepsDistinct(tail, id);
      if ps[0].id != id {
        assert !HasId(tail, ps[0].id) by {
          forall k | 0 <= k < |tail| ensures tail[k].id != ps[0].id {
            assert tail[k] == ps[k + 1];
          }
        }
        if HasId(Without(tail, id), ps[0].id) {
          WithoutHasId(tail, id, ps[0].id);
        }
        PrependDistinct(ps[0], Without(tail, id));
      }
    }
  }

  /** Appending a record keeps ids distinct exactly when its id is not in the list yet. */
  lemma AppendDistinctIff(ps: seq<Product>, p: Product)
    ensures DistinctIds(ps + [p]) <==> DistinctIds(ps) && !HasId(ps, p.id)
  {
    var r := ps + [p];
    if DistinctIds(r) {
      forall i, j | 0 <= i < j < |ps| ensures ps[i].id != ps[j].id {
        assert r[i] == ps[i] && r[j] == ps[j];
      }
      forall i | 0 <= i < |ps| ensures ps[i].id != p.id {
        assert r[i] == ps[i] && r[|ps|] == p;
      }
    }
  }

  /** A timestamp later than every id in the list gives a fresh id. */
  lemma StampAfterIdsKeepsDistinct(ps: seq<Product>, now: int, f: ProductFields)
    requires DistinctIds(ps) && IdsBelow(ps, now)
    ensures DistinctIds(ps + [Stamped(now, f)])
    ensures IdsBelow(ps + [Stamped(now, f)], now + 1)
  {
    AppendDistinctIff(ps, Stamped(now, f));
  }

  /** Two records stamped within the same millisecond share their id. */
  lemma SameInstantCollides(ps: seq<Product>, now: int, f: ProductFields, g: ProductFields)
    ensures !DistinctIds(ps + [Stamped(now, f)] + [Stamped(now, g)])
  {
    var r := ps + [Stamped(now, f)] + [Stamped(now, g)];
    assert r[|ps|].id == r[|ps| + 1].id;
  }
}
