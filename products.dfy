/** A product record, the field updates the edit form makes to it, and the
    by-id list updates the catalogue applies (`map` and `filter`). */
module Products {
  import opened Basics

  datatype Product = Product(
    id: string,
    name: string,
    description: string,
    price: real,
    quantity: int,
    unit: string,
    category: string,
    image: string)

  /** The editable fields of a product, every key of `Product` but `id`. */
  datatype ProductField = Name | Description | Price | Quantity | Unit | Category | Image

  /** One `updateEditingProduct(field, value)` call, typed by its field. */
  datatype ProductEdit =
    | SetName(string)
    | SetDescription(string)
    | SetPrice(real)
    | SetQuantity(int)
    | SetUnit(string)
    | SetCategory(string)
    | SetImage(string)

  function FieldOf(e: ProductEdit): ProductField
  {
    match e
    case SetName(_) => Name
    case SetDescription(_) => Description
    case SetPrice(_) => Price
    case SetQuantity(_) => Quantity
    case SetUnit(_) => Unit
    case SetCategory(_) => Category
    case SetImage(_) => Image
  }

  /** `p` and `q` have the same id and agree on every field except `f`. */
  predicate AgreeExcept(p: Product, q: Product, f: ProductField)
  {
    && p.id == q.id
    && (f == Name || p.name == q.name)
    && (f == Description || p.description == q.description)
    && (f == Price || p.price == q.price)
    && (f == Quantity || p.quantity == q.quantity)
    && (f == Unit || p.unit == q.unit)
    && (f == Category || p.category == q.category)
    && (f == Image || p.image == q.image)
  }

  /** The field `e` names holds the value `e` carries. */
  predicate Holds(p: Product, e: ProductEdit)
  {
    match e
    case SetName(v) => p.name == v
    case SetDescription(v) => p.description == v
    case SetPrice(v) => p.price == v
    case SetQuantity(v) => p.quantity == v
    case SetUnit(v) => p.unit == v
    case SetCategory(v) => p.category == v
    case SetImage(v) => p.image == v
  }

  /** `{ ...p, [field]: value }`. */
  function ApplyEdit(p: Product, e: ProductEdit): (r: Product)
    ensures Holds(r, e)
    ensures AgreeExcept(p, r, FieldOf(e))
  {
    match e
    case SetName(v) => p.(name := v)
    case SetDescription(v) => p.(description := v)
    case SetPrice(v) => p.(price := v)
    case SetQuantity(v) => p.(quantity := v)
    case SetUnit(v) => p.(unit := v)
    case SetCategory(v) => p.(category := v)
    case SetImage(v) => p.(image := v)
  }

  /** No two listed products share an id. */
  ghost predicate UniqueIds(ps: seq<Product>)
  {
    forall i, j :: 0 <= i < j < |ps| ==> ps[i].id != ps[j].id
  }

  /** No listed product carries `id`. */
  ghost predicate Fresh(ps: seq<Product>, id: string)
  {
    forall p :: p in ps ==> p.id != id
  }

  /** `prev.map(p => p.id === id ? q : p)`. */
  function ReplaceById(ps: seq<Product>, id: string, q: Product): (r: seq<Product>)
    ensures |r| == |ps|
    ensures forall i :: 0 <= i < |ps| ==> r[i] == (if ps[i].id == id then q else ps[i])
  {
    if ps == [] then []
    else [if ps[0].id == id then q else ps[0]] + ReplaceById(ps[1..], id, q)
  }

  /** `prev.filter(p => p.id !== id)`. */
  function RemoveById(ps: seq<Product>, id: string): (r: seq<Product>)
    ensures |r| <= |ps|
    ensures forall i :: 0 <= i < |r| ==> r[i].id != id
  {
    if ps == [] then []
    else if ps[0].id == id then RemoveById(ps[1..], id)
    else [ps[0]] + RemoveById(ps[1..], id)
  }

  /** Removal keeps exactly the products that do not carry the id. */
  lemma {:induction false} RemoveByIdMembers(ps: seq<Product>, id: string)
    ensures forall p :: p in RemoveById(ps, id) <==> p in ps && p.id != id
  {
    if ps != [] {
      RemoveByIdMembers(ps[1..], id);
      assert ps == [ps[0]] + ps[1..];
    }
  }

  /** Replacing by id with a product of that same id keeps every id in place,
      so it keeps the ids unique. */
  lemma ReplaceByIdKeepsUnique(ps: seq<Product>, id: string, q: Product)
    requires UniqueIds(ps) && q.id == id
    ensures UniqueIds(ReplaceById(ps, id, q))
  {
    var r := ReplaceById(ps, id, q);
    assert forall i :: 0 <= i < |ps| ==> r[i].id == ps[i].id;
  }

  /** Writing a listed product back over its own id changes nothing. */
  lemma ReplaceWithSelf(ps: seq<Product>, k: int)
    requires UniqueIds(ps) && 0 <= k < |ps|
    ensures ReplaceById(ps, ps[k].id, ps[k]) == ps
  {
    var r := ReplaceById(ps, ps[k].id, ps[k]);
    forall i | 0 <= i < |ps|
      ensures r[i] == ps[i]
    {
      if i < k {
        assert ps[i].id != ps[k].id;
      } else if k < i {
        assert ps[k].id != ps[i].id;
      }
    }
  }

  /** With unique ids, replacing by the id at position `k` rewrites that
      position and no other. */
  lemma ReplaceUniqueAt(ps: seq<Product>, k: int, q: Product)
    requires UniqueIds(ps) && 0 <= k < |ps| && q.id == ps[k].id
    ensures ReplaceById(ps, q.id, q) == ps[k := q]
  {
    var r := ReplaceById(ps, q.id, q);
    forall i | 0 <= i < |ps|
      ensures r[i] == ps[k := q][i]
    {
      if i < k {
        assert ps[i].id != ps[k].id;
      } else if k < i {
        assert ps[k].id != ps[i].id;
      }
    }
  }

  /** Removal keeps the surviving products in their original relative order. */
  lemma {:induction false} RemoveByIdKeepsOrder(ps: seq<Product>, id: string)
    ensures IsSubsequence(RemoveById(ps, id), ps)
  {
    if ps != [] {
      RemoveByIdKeepsOrder(ps[1..], id);
      assert ps == [ps[0]] + ps[1..];
      if ps[0].id == id {
        SkipSubsequence(ps[0], RemoveById(ps[1..], id), ps[1..]);
      } else {
        ConsSubsequence(ps[0], RemoveById(ps[1..], id), ps[1..]);
      }
    }
  }

  /** Removing an id no product carries leaves the list as it was. */
  lemma {:induction false} RemoveByIdAbsent(ps: seq<Product>, id: string)
    requires Fresh(ps, id)
    ensures RemoveById(ps, id) == ps
  {
    if ps != [] {
      assert ps[0] in ps;
      RemoveByIdAbsent(ps[1..], id);
      assert ps == [ps[0]] + ps[1..];
    }
  }

  /** Removal acts on each part of a list independently. */
  lemma {:induction false} RemoveByIdAppend(a: seq<Product>, b: seq<Product>, id: string)
    ensures RemoveById(a + b, id) == RemoveById(a, id) + RemoveById(b, id)
  {
    if a == [] {
      assert a + b == b;
    } else {
      assert (a + b)[0] == a[0];
      assert (a + b)[1..] == a[1..] + b;
      RemoveByIdAppend(a[1..], b, id);
    }
  }

  /** Removal keeps the ids unique. */
  lemma {:induction false} RemoveByIdKeepsUnique(ps: seq<Product>, id: string)
    requires UniqueIds(ps)
    ensures UniqueIds(RemoveById(ps, id))
  {
    if ps != [] {
      var rest := RemoveById(ps[1..], id);
      RemoveByIdKeepsUnique(ps[1..], id);
      if ps[0].id != id {
        RemoveByIdMembers(ps[1..], id);
        forall j | 0 <= j < |rest|
          ensures rest[j].id != ps[0].id
        {
          assert rest[j] in ps[1..];
          var m :| 0 <= m < |ps[1..]| && ps[1..][m] == rest[j];
          assert ps[m + 1] == rest[j];
        }
        var r := [ps[0]] + rest;
        forall i, j | 0 <= i < j < |r|
          ensures r[i].id != r[j].id
        {
          if i > 0 {
            assert r[i] == rest[i - 1] && r[j] == rest[j - 1];
          }
        }
      }
    }
  }

  /** With unique ids, removing the id at position `k` deletes exactly that
      product and keeps the others in order. */
  lemma {:induction false} RemoveUniqueAt(ps: seq<Product>, k: int)
    requires UniqueIds(ps) && 0 <= k < |ps|
    ensures RemoveById(ps, ps[k].id) == ps[..k] + ps[k + 1..]
  {
    var id, rest := ps[k].id, ps[1..];
    assert UniqueIds(rest) by {
      forall i, j | 0 <= i < j < |rest|
        ensures rest[i].id != rest[j].id
      {
        assert rest[i] == ps[i + 1] && rest[j] == ps[j + 1];
      }
    }
    if k == 0 {
      forall p | p in rest
        ensures p.id != id
      {
        var j :| 0 <= j < |rest| && rest[j] == p;
        assert ps[j + 1] == p;
      }
      RemoveByIdAbsent(rest, id);
    } else {
      assert ps[0].id != id;
      assert rest[k - 1] == ps[k];
      RemoveUniqueAt(rest, k - 1);
      assert ps[..k] == [ps[0]] + rest[..k - 1];
      assert ps[k + 1..] == rest[k..];
    }
  }
}
