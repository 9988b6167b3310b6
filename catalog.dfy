/** The product catalogue card: an insertion-ordered list of products, one
    working copy under edit with an optional snapshot, and a one-slot
    pending deletion behind a confirmation modal. */
module Catalog {
  import opened Basics
  import opened Toasts
  import opened Products

  /** The options the edit form offers. They are not an invariant of the
      list: the seed product "Fresh Lettuce" is sold by the "head". */
  const Categories: seq<string> := ["Vegetables", "Fruits", "Dairy & Eggs", "Herbs", "Grains", "Other"]
  const Units: seq<string> := ["lb", "kg", "piece", "bunch", "dozen", "bag"]

  /** The list the card starts with. */
  const SeedProducts: seq<Product> := [Tomatoes, Lettuce, Eggs]

  const Tomatoes := Product("1", "Organic Tomatoes",
    "Fresh, vine-ripened organic tomatoes grown without pesticides. Perfect for salads, cooking, and sauces.",
    149.99, 50, "lb", "Vegetables",
    "https://images.pexels.com/photos/533280/pexels-photo-533280.jpeg?auto=compress&cs=tinysrgb&w=400")
  const Lettuce := Product("2", "Fresh Lettuce",
    "Crisp and fresh organic lettuce, harvested daily. Great for salads and sandwiches.",
    89.99, 30, "head", "Vegetables",
    "https://images.pexels.com/photos/1656663/pexels-photo-1656663.jpeg?auto=compress&cs=tinysrgb&w=400")
  const Eggs := Product("3", "Farm Fresh Eggs",
    "Free-range chicken eggs from happy, healthy hens. Rich in nutrients and flavor.",
    209.99, 25, "dozen", "Dairy & Eggs",
    "https://images.pexels.com/photos/162712/egg-white-food-protein-162712.jpeg?auto=compress&cs=tinysrgb&w=400")

  /** The placeholder product "Add Product" creates, under a clock id: free
      of charge, out of stock, sold by the pound as a vegetable, so its unit
      and category are ones the edit form offers. */
  function NewProduct(id: string): (p: Product)
    ensures p.id == id && p.name == "New Product" && p.description == "Product description"
    ensures p.image == PlaceholderImage
    ensures p.price == 0.0 && p.quantity == 0
    ensures p.unit == "lb" && p.category == "Vegetables"
    ensures p.unit in Units && p.category in Categories
  {
    Product(id, "New Product", "Product description", 0.0, 0, "lb", "Vegetables", PlaceholderImage)
  }

  const PlaceholderImage: string :=
    "https://images.pexels.com/photos/1300972/pexels-photo-1300972.jpeg?auto=compress&cs=tinysrgb&w=400"

  /** The two success messages end in emoji whose UTF-8 bytes were decoded
      once more as Windows-1252 in the program text, so the page shows the
      characters below rather than a carrot and sparkles. */
  const SavedNotice := Notice("Product details saved successfully! \U{00F0}\U{0178}\U{00A5}\U{2022}", Success)
  const CreatedNotice := Notice("New product created! Please fill in the details. \U{00E2}\U{0153}\U{00A8}", Success)
  const CancelledNotice := Notice("Changes have been cancelled.", Warning)

  /** The warning that names a removed product. */
  function RemovedNotice(p: Product): (n: Notice)
    ensures n.kind == Warning
    ensures |n.message| > |p.name| + 1 && n.message[1..|p.name| + 1] == p.name
    ensures n.message[0] == '"' && n.message[|p.name| + 1] == '"'
  {
    var m := "\"" + p.name + "\" has been removed successfully";
    assert m[1..|p.name| + 1] == p.name;
    assert m[|p.name| + 1] == '"';
    Notice(m, Warning)
  }

  /** The component's state. `original == None` while editing marks a new,
      never-saved product; `pending` is `productToDelete`. */
  datatype CatalogState = CatalogState(
    products: seq<Product>,
    editing: Option<Product>,
    original: Option<Product>,
    isEditing: bool,
    showAddForm: bool,
    showDeleteModal: bool,
    pending: Option<Product>)

  /** What every handler keeps: unique ids, `isEditing` exactly when there
      is a working copy, a snapshot only beside a working copy of the same
      id, and the modal open exactly when a deletion is pending. */
  ghost predicate Coherent(c: CatalogState)
  {
    && UniqueIds(c.products)
    && c.isEditing == c.editing.Some?
    && (c.original.Some? ==> c.editing.Some? && c.original.value.id == c.editing.value.id)
    && c.showDeleteModal == c.pending.Some?
  }

  /** The first render. */
  function Initial(): (c: CatalogState)
    ensures Coherent(c) && c.products == SeedProducts && !c.isEditing && !c.showDeleteModal
  {
    CatalogState(SeedProducts, None, None, false, false, false, None)
  }

  /** `handleEditProduct(p)`: snapshot and working copy both become `p`. No
      check is made that another edit is under way. */
  function StartEdit(c: CatalogState, p: Product): (r: CatalogState)
    ensures r.products == c.products && r.editing == Some(p) && r.original == Some(p) && r.isEditing
    ensures r.pending == c.pending && r.showDeleteModal == c.showDeleteModal && r.showAddForm == c.showAddForm
    ensures Coherent(c) ==> Coherent(r)
  {
    c.(original := Some(p), editing := Some(p), isEditing := true)
  }

  /** `updateEditingProduct`: only the named field of the working copy
      changes; a no-op when nothing is being edited. */
  function UpdateEditing(c: CatalogState, e: ProductEdit): (r: CatalogState)
    ensures c.editing.None? ==> r == c
    ensures c.editing.Some? ==>
      && r.editing.Some?
      && Holds(r.editing.value, e)
      && AgreeExcept(c.editing.value, r.editing.value, FieldOf(e))
      && r == c.(editing := r.editing)
    ensures Coherent(c) ==> Coherent(r)
  {
    match c.editing
    case Some(w) => c.(editing := Some(ApplyEdit(w, e)))
    case None => c
  }

  /** `handleSaveProduct`, committed at once: every entry with the working
      copy's id becomes the working copy; the edit session ends. */
  function Save(c: CatalogState): (r: CatalogState)
    ensures c.editing.None? ==> r == c
    ensures |r.products| == |c.products|
    ensures c.editing.Some? ==>
      && (forall i :: 0 <= i < |c.products| && c.products[i].id == c.editing.value.id ==>
            r.products[i] == c.editing.value)
      && (forall i :: 0 <= i < |c.products| && c.products[i].id != c.editing.value.id ==>
            r.products[i] == c.products[i])
      && r.editing.None? && r.original.None? && !r.isEditing
      && r.pending == c.pending && r.showDeleteModal == c.showDeleteModal
  {
    match c.editing
    case Some(w) =>
      c.(products := ReplaceById(c.products, w.id, w), editing := None, original := None, isEditing := false)
    case None => c
  }

  /** `handleDeleteClick(p)`: the list is untouched. */
  function RequestDelete(c: CatalogState, p: Product): (r: CatalogState)
    ensures r.products == c.products && r.pending == Some(p) && r.showDeleteModal
    ensures r.editing == c.editing && r.original == c.original && r.isEditing == c.isEditing
    ensures r.showAddForm == c.showAddForm
    ensures Coherent(c) ==> Coherent(r)
  {
    c.(pending := Some(p), showDeleteModal := true)
  }

  /** `handleConfirmDelete`: removes every product with the pending id, and
      always closes the modal and clears the slot. */
  function ConfirmDelete(c: CatalogState): (r: CatalogState)
    ensures r.pending.None? && !r.showDeleteModal
    ensures c.pending.None? ==> r.products == c.products
    ensures c.pending.Some? ==> forall i :: 0 <= i < |r.products| ==> r.products[i].id != c.pending.value.id
    ensures c.pending.Some? ==> forall p :: p in r.products <==> p in c.products && p.id != c.pending.value.id
    ensures IsSubsequence(r.products, c.products)
    ensures |r.products| <= |c.products|
    ensures r.editing == c.editing && r.original == c.original && r.isEditing == c.isEditing
    ensures r.showAddForm == c.showAddForm
  {
    match c.pending
    case Some(d) =>
      RemoveByIdMembers(c.products, d.id);
      RemoveByIdKeepsOrder(c.products, d.id);
      c.(products := RemoveById(c.products, d.id), showDeleteModal := false, pending := None)
    case None =>
      SubsequenceOfItself(c.products);
      c.(showDeleteModal := false, pending := None)
  }

  /** `handleCancelDelete`: the list is untouched. */
  function CancelDelete(c: CatalogState): (r: CatalogState)
    ensures r.products == c.products && r.pending.None? && !r.showDeleteModal
    ensures r.editing == c.editing && r.original == c.original && r.isEditing == c.isEditing
    ensures r.showAddForm == c.showAddForm
    ensures Coherent(c) ==> Coherent(r)
  {
    c.(showDeleteModal := false, pending := None)
  }

  /** `handleAddProduct` with clock id `id`: the placeholder is appended and
      becomes the working copy, with no snapshot. */
  function Add(c: CatalogState, id: string): (r: CatalogState)
    requires Fresh(c.products, id)
    ensures r.products == c.products + [NewProduct(id)]
    ensures r.editing == Some(NewProduct(id)) && r.original.None? && r.isEditing && !r.showAddForm
    ensures r.pending == c.pending && r.showDeleteModal == c.showDeleteModal
  {
    c.(products := c.products + [NewProduct(id)], original := None,
       editing := Some(NewProduct(id)), isEditing := true, showAddForm := false)
  }

  /** `handleCancel`: with a snapshot, writes it back at the edited id;
      without one, removes the never-saved working copy by id. */
  function Cancel(c: CatalogState): (r: CatalogState)
    ensures r.editing.None? && r.original.None? && !r.isEditing && !r.showAddForm
    ensures r.pending == c.pending && r.showDeleteModal == c.showDeleteModal
    ensures c.editing.None? ==> r.products == c.products
    ensures c.editing.Some? && c.original.Some? ==>
      && |r.products| == |c.products|
      && forall i :: 0 <= i < |c.products| ==>
           r.products[i] == if c.products[i].id == c.editing.value.id then c.original.value else c.products[i]
    ensures c.editing.Some? && c.original.None? ==>
      && |r.products| <= |c.products|
      && (forall i :: 0 <= i < |r.products| ==> r.products[i].id != c.editing.value.id)
      && (forall p :: p in r.products <==> p in c.products && p.id != c.editing.value.id)
      && IsSubsequence(r.products, c.products)
  {
    if c.editing.Some? && c.original.None? then
      var id := c.editing.value.id;
      RemoveByIdMembers(c.products, id);
      RemoveByIdKeepsOrder(c.products, id);
      c.(products := RemoveById(c.products, id), editing := None, original := None, isEditing := false,
         showAddForm := false)
    else
      var ps :=
        if c.original.Some? && c.editing.Some? then ReplaceById(c.products, c.editing.value.id, c.original.value)
        else c.products;
      c.(products := ps, editing := None, original := None, isEditing := false, showAddForm := false)
  }

  lemma SaveKeepsCoherent(c: CatalogState)
    requires Coherent(c)
    ensures Coherent(Save(c))
  {
    if c.editing.Some? {
      ReplaceByIdKeepsUnique(c.products, c.editing.value.id, c.editing.value);
    }
  }

  lemma ConfirmDeleteKeepsCoherent(c: CatalogState)
    requires Coherent(c)
    ensures Coherent(ConfirmDelete(c))
  {
    if c.pending.Some? {
      RemoveByIdKeepsUnique(c.products, c.pending.value.id);
    }
  }

  lemma AddKeepsCoherent(c: CatalogState, id: string)
    requires Coherent(c) && Fresh(c.products, id)
    ensures Coherent(Add(c, id))
  {
    var ps := c.products + [NewProduct(id)];
    forall i, j | 0 <= i < j < |ps|
      ensures ps[i].id != ps[j].id
    {
      if j == |c.products| {
        assert ps[i] in c.products;
      } else {
        assert ps[i] == c.products[i] && ps[j] == c.products[j];
      }
    }
  }

  lemma CancelKeepsCoherent(c: CatalogState)
    requires Coherent(c)
    ensures Coherent(Cancel(c))
  {
    if c.editing.Some? && c.original.Some? {
      ReplaceByIdKeepsUnique(c.products, c.editing.value.id, c.original.value);
    } else if c.editing.Some? {
      RemoveByIdKeepsUnique(c.products, c.editing.value.id);
    }
  }

  /** A run of field updates, one per keystroke. */
  function UpdateAll(c: CatalogState, es: seq<ProductEdit>): CatalogState
    decreases |es|
  {
    if es == [] then c else UpdateAll(UpdateEditing(c, es[0]), es[1..])
  }

  /** Field updates touch only the working copy, and never its id. */
  lemma {:induction false} UpdateAllKeeps(c: CatalogState, es: seq<ProductEdit>)
    ensures UpdateAll(c, es) == c.(editing := UpdateAll(c, es).editing)
    ensures UpdateAll(c, es).editing.Some? == c.editing.Some?
    ensures c.editing.Some? ==> UpdateAll(c, es).editing.value.id == c.editing.value.id
    decreases |es|
  {
    if es != [] {
      UpdateAllKeeps(UpdateEditing(c, es[0]), es[1..]);
    }
  }

  /** Add, any field updates, then cancel: the list is exactly the original
      list in its original order, and no edit session remains. */
  lemma AddThenCancel(c: CatalogState, id: string, es: seq<ProductEdit>)
    requires Fresh(c.products, id)
    ensures Cancel(UpdateAll(Add(c, id), es))
      == c.(editing := None, original := None, isEditing := false, showAddForm := false)
  {
    var a := Add(c, id);
    UpdateAllKeeps(a, es);
    RemoveByIdAppend(c.products, [NewProduct(id)], id);
    RemoveByIdAbsent(c.products, id);
    assert RemoveById([NewProduct(id)], id) == [];
  }

  /** Start editing a listed product, any field updates, then cancel: the
      list is exactly what it was before the edit. */
  lemma EditThenCancel(c: CatalogState, k: int, es: seq<ProductEdit>)
    requires Coherent(c) && 0 <= k < |c.products|
    ensures Cancel(UpdateAll(StartEdit(c, c.products[k]), es))
      == c.(editing := None, original := None, isEditing := false, showAddForm := false)
  {
    UpdateAllKeeps(StartEdit(c, c.products[k]), es);
    ReplaceWithSelf(c.products, k);
  }

  /** Saving a working copy whose id is listed at `k` rewrites that entry
      with exactly the working copy and leaves every other entry as it was. */
  lemma SaveReplacesOne(c: CatalogState, k: int)
    requires Coherent(c) && c.editing.Some? && 0 <= k < |c.products|
    requires c.products[k].id == c.editing.value.id
    ensures Save(c).products == c.products[k := c.editing.value]
  {
    ReplaceUniqueAt(c.products, k, c.editing.value);
  }

  /** Confirming the deletion of a product listed at `k` removes exactly that
      product and keeps the others in order. */
  lemma ConfirmDeleteRemovesOne(c: CatalogState, k: int)
    requires Coherent(c) && c.pending.Some? && 0 <= k < |c.products|
    requires c.products[k].id == c.pending.value.id
    ensures ConfirmDelete(c).products == c.products[..k] + c.products[k + 1..]
    ensures |ConfirmDelete(c).products| == |c.products| - 1
  {
    RemoveUniqueAt(c.products, k);
  }

  /** Cancelling a never-saved product that is still listed at `k` cuts out
      exactly that entry, whatever happened to the rest of the list since it
      was added. */
  lemma CancelNewRemovesOne(c: CatalogState, k: int)
    requires Coherent(c) && c.editing.Some? && c.original.None? && 0 <= k < |c.products|
    requires c.products[k].id == c.editing.value.id
    ensures Cancel(c).products == c.products[..k] + c.products[k + 1..]
    ensures |Cancel(c).products| == |c.products| - 1
  {
    RemoveUniqueAt(c.products, k);
  }

  /** Request then cancel a deletion: the state is as before the request. */
  lemma RequestThenCancelDelete(c: CatalogState, p: Product)
    requires Coherent(c) && c.pending.None?
    ensures CancelDelete(RequestDelete(c, p)) == c
  {
  }

  /** Starting an edit of another listed product while a new product is
      still unsaved replaces the snapshot; the later cancel then restores the
      other product and the new one stays in the list. */
  lemma SecondEditKeepsNewProduct(c: CatalogState, id: string, q: Product)
    requires Fresh(c.products, id) && q.id != id
    ensures NewProduct(id) in Cancel(StartEdit(Add(c, id), q)).products
  {
    var ps := c.products + [NewProduct(id)];
    assert ReplaceById(ps, q.id, q)[|c.products|] == NewProduct(id);
  }

  /** The seed list already holds a unit the edit form does not offer. */
  lemma SeedUnitNotOffered()
    ensures Lettuce in SeedProducts && Lettuce.unit !in Units
  {
  }

  /** Adding to the seed list, then cancelling: four products with the
      placeholder last, then exactly the three seed products again. */
  lemma SeedAddThenCancel(id: string)
    requires id != "1" && id != "2" && id != "3"
    ensures |Add(Initial(), id).products| == 4
    ensures Add(Initial(), id).products[3].name == "New Product"
    ensures Cancel(Add(Initial(), id)).products == SeedProducts
  {
    AddThenCancel(Initial(), id, []);
  }

  /** Editing the first seed product's price to 129.99 and saving: that price
      is committed and the other two products are untouched. */
  lemma SeedEditPriceThenSave()
    ensures Save(UpdateEditing(StartEdit(Initial(), SeedProducts[0]), SetPrice(129.99))).products
      == [SeedProducts[0].(price := 129.99), SeedProducts[1], SeedProducts[2]]
  {
    var c := UpdateEditing(StartEdit(Initial(), SeedProducts[0]), SetPrice(129.99));
    SaveReplacesOne(c, 0);
  }

  /** The `ProductDetail` component. */
  class ProductDetail {
    var products: seq<Product>
    var editingProduct: Option<Product>
    var originalProduct: Option<Product>
    var isEditing: bool
    var showAddForm: bool
    var showDeleteModal: bool
    var productToDelete: Option<Product>

    function State(): CatalogState
      reads this
    {
      CatalogState(products, editingProduct, originalProduct, isEditing, showAddForm,
                   showDeleteModal, productToDelete)
    }

    ghost predicate Valid()
      reads this
    {
      Coherent(State())
    }

    constructor ()
      ensures Valid() && State() == Initial()
    {
      products := SeedProducts;
      editingProduct := None;
      originalProduct := None;
      isEditing := false;
      showAddForm := false;
      showDeleteModal := false;
      productToDelete := None;
    }

    method HandleEditProduct(product: Product)
      requires Valid()
      modifies this
      ensures Valid() && State() == StartEdit(old(State()), product)
    {
      originalProduct := Some(product);
      editingProduct := Some(product);
      isEditing := true;
    }

    /** Emits one success notice when there was a working copy. */
    method HandleSaveProduct() returns (notice: Option<Notice>)
      requires Valid()
      modifies this
      ensures Valid() && State() == Save(old(State()))
      ensures notice == if old(editingProduct).Some? then Some(SavedNotice) else None
    {
      SaveKeepsCoherent(State());
      notice := None;
      if editingProduct.Some? {
        var w := editingProduct.value;
        products := ReplaceById(products, w.id, w);
        editingProduct := None;
        originalProduct := None;
        isEditing := false;
        notice := Some(SavedNotice);
      }
    }

    method HandleDeleteClick(product: Product)
      requires Valid()
      modifies this
      ensures Valid() && State() == RequestDelete(old(State()), product)
    {
      productToDelete := Some(product);
      showDeleteModal := true;
    }

    /** Emits one warning naming the product when one was pending. */
    method HandleConfirmDelete() returns (notice: Option<Notice>)
      requires Valid()
      modifies this
      ensures Valid() && State() == ConfirmDelete(old(State()))
      ensures notice == if old(productToDelete).Some? then Some(RemovedNotice(old(productToDelete).value)) else None
    {
      ConfirmDeleteKeepsCoherent(State());
      notice := None;
      if productToDelete.Some? {
        var d := productToDelete.value;
        products := RemoveById(products, d.id);
        notice := Some(RemovedNotice(d));
      }
      showDeleteModal := false;
      productToDelete := None;
    }

    method HandleCancelDelete()
      requires Valid()
      modifies this
      ensures Valid() && State() == CancelDelete(old(State()))
    {
      showDeleteModal := false;
      productToDelete := None;
    }

    /** `id` is the clock reading, which no listed product may carry. */
    method HandleAddProduct(id: string) returns (notice: Notice)
      requires Valid() && Fresh(products, id)
      modifies this
      ensures Valid() && State() == Add(old(State()), id)
      ensures notice == CreatedNotice
    {
      AddKeepsCoherent(State(), id);
      var newProduct := NewProduct(id);
      products := products + [newProduct];
      originalProduct := None;
      editingProduct := Some(newProduct);
      isEditing := true;
      showAddForm := false;
      notice := CreatedNotice;
    }

    /** Always emits one warning notice. */
    method HandleCancel() returns (notice: Notice)
      requires Valid()
      modifies this
      ensures Valid() && State() == Cancel(old(State()))
      ensures notice == CancelledNotice
    {
      CancelKeepsCoherent(State());
      if originalProduct.Some? && editingProduct.Some? {
        products := ReplaceById(products, editingProduct.value.id, originalProduct.value);
      } else if editingProduct.Some? && originalProduct.None? {
        products := RemoveById(products, editingProduct.value.id);
      }
      editingProduct := None;
      originalProduct := None;
      isEditing := false;
      showAddForm := false;
      notice := CancelledNotice;
    }

    method UpdateEditingProduct(edit: ProductEdit)
      requires Valid()
      modifies this
      ensures Valid() && State() == UpdateEditing(old(State()), edit)
    {
      if editingProduct.Some? {
        editingProduct := Some(ApplyEdit(editingProduct.value, edit));
      }
    }
  }
}
