# Farmer dashboard: state machines behind the profile, catalogue and toasts

This project models the state handling of a farmer's dashboard (Farm2Hand) in Dafny and proves properties of it. The dashboard is a single page with three parts:

- **Toast list** (`useToast` hook). It holds an ordered list of notifications. `showToast` appends one with a defaulted type and duration. `removeToast` drops every toast carrying an id. `showSuccess`, `showError` and `showWarning` fix the type. Module `Toasts`, class `Toasts.ToastStore`.
- **Profile card** (`UserProfile`). It holds one profile record, a snapshot `originalData` and an `isEditing` flag. Start-edit takes the snapshot, an input change rewrites one field, save makes the data the new snapshot, and cancel restores the snapshot. Module `Profile`, class `Profile.UserProfile`.
- **Product catalogue** (`ProductDetail`). It holds an insertion-ordered product list, a working copy `editingProduct`, a snapshot `originalProduct` (none means the product is new and unsaved), `isEditing`, and a one-slot pending deletion `productToDelete` paired with `showDeleteModal`. The product record and the by-id list updates (`map`, `filter`) are in module `Products`. The component state and handlers are in module `Catalog`, class `Catalog.ProductDetail`.

The profile card and the catalogue are written the same way:
- a state datatype;
- one pure transition function per handler, which is the specification;
- a class with the component's fields, whose handler methods are proved to satisfy `State() == Transition(old(State()))`;
- lemmas about the transition functions: round trips, order preservation, what stays unchanged, and the invariant `Catalog.Coherent`.

The toast store's only state is its list, so `Toasts.ToastStore` keeps a `seq<Toast>` field, and each method states the new list directly in terms of `MakeToast` and `WithoutId`.

`Catalog.Coherent` says:
- product ids are unique;
- `isEditing` holds exactly when there is a working copy;
- a snapshot exists only beside a working copy with the same id;
- the delete modal is open exactly when a deletion is pending.

Handlers that call `onToastShow(message, type)` return that call as a `Notice` out-parameter.

Three behaviours of the code are easy to miss. The model follows the code in each:
- Toast ids are not unique. They come from a millisecond clock, and one `removeToast` closes every toast with that id (`Toasts.WithoutIdCount`, `Toasts.SameMillisecondToastsCloseTogether`).
- "Edit" stays available on sibling cards during an edit. Starting a second edit overwrites the snapshot, and a never-saved product then survives cancel (`Catalog.SecondEditKeepsNewProduct`). No precondition rules this out.
- Confirm-delete with nothing pending still closes the modal and clears the slot.

Units and categories are not an invariant of the list. The seed product "Fresh Lettuce" is sold by the "head", which is not among the form's units (`Catalog.SeedUnitNotOffered`).

## Model

| member | source | states |
|---|---|---|
| `Toasts.EffectiveType` | src/hooks/useToast.ts:17 | The given type is kept; a missing type becomes success |
| `Toasts.EffectiveDuration` | src/hooks/useToast.ts:18 | A missing duration or 0 becomes 4000, any other duration is kept, and the result is never 0 |
| `Toasts.MakeToast` | src/hooks/useToast.ts:13-20 | The toast carries the given id and message; its type defaults to success and its duration to 4000 ms (also for 0), and its duration is never 0 |
| `Toasts.WithoutId` | src/hooks/useToast.ts:25-27 | After removal a toast is present exactly when it was present before and does not carry the id |
| `Toasts.WithoutIdKeepsOrder` | src/hooks/useToast.ts:26 | The remaining toasts are a subsequence of the old list, so their relative order is kept |
| `Toasts.WithoutIdCount` | src/hooks/useToast.ts:13-26 | Removal shortens the list by exactly the number of toasts carrying the id, so colliding ids all go |
| `Toasts.WithoutIdAbsent` | src/hooks/useToast.ts:26 | Removing an id that no toast carries is a no-op |
| `Toasts.WithoutIdIdempotent` | src/hooks/useToast.ts:26 | Removing the same id twice equals removing it once |
| `Toasts.WithoutIdAppend` | src/hooks/useToast.ts:26 | Removal distributes over concatenation of lists |
| `Toasts.ShowThenRemove` | src/hooks/useToast.ts:12-27 | Closing a toast just shown also closes every earlier toast that got the same clock id |
| `Toasts.ShowThenRemoveFresh` | src/hooks/useToast.ts:12-27 | With a clock id no live toast carries, show then close returns exactly the old list |
| `Toasts.SameMillisecondToastsCloseTogether` | src/hooks/useToast.ts:13-26 | Two toasts shown in the same millisecond are both closed by one removal |
| `Toasts.ToastStore.constructor` | src/hooks/useToast.ts:10 | The list starts empty |
| `Toasts.ToastStore.ShowToast` | src/hooks/useToast.ts:12-23 | Appends exactly one toast (given id and message, defaulted type and duration) and leaves earlier toasts in order |
| `Toasts.ToastStore.RemoveToast` | src/hooks/useToast.ts:25-27 | The new list is the old one without the toasts carrying the id |
| `Toasts.ToastStore.ShowSuccess` | src/hooks/useToast.ts:29-31 | Appends one toast whose type is success |
| `Toasts.ToastStore.ShowError` | src/hooks/useToast.ts:33-35 | Appends one toast whose type is error |
| `Toasts.ToastStore.ShowWarning` | src/hooks/useToast.ts:37-39 | Appends one toast whose type is warning |
| `Profile.With` | src/components/UserProfile.tsx:33-35 | The named field takes the value and every other field is kept |
| `Profile.Initial` | src/components/UserProfile.tsx:20-31 | Initially not editing, with the snapshot equal to the data |
| `Profile.StartEdit` | src/components/UserProfile.tsx:66-69 | The data is copied into the snapshot and editing starts; the data is unchanged |
| `Profile.InputChange` | src/components/UserProfile.tsx:33-35 | Only the named field of the data changes; the snapshot and flag are untouched |
| `Profile.Save` | src/components/UserProfile.tsx:37-49 | Editing stops and the snapshot equals the saved data |
| `Profile.Cancel` | src/components/UserProfile.tsx:57-59 | The data becomes the snapshot and editing stops |
| `Profile.ApplyChangesKeepsSnapshot` | src/components/UserProfile.tsx:33-35 | Any run of input changes leaves the snapshot and the flag alone |
| `Profile.EditThenCancel` | src/components/UserProfile.tsx:33-69 | Start-edit, any input changes, then cancel yields the pre-edit profile field by field |
| `Profile.SaveThenCancel` | src/components/UserProfile.tsx:33-59 | After a save, any input changes then cancel return the saved data |
| `Profile.SaveThenEditThenCancel` | src/components/UserProfile.tsx:37-69 | Save, then a new edit session that is cancelled, returns the saved data |
| `Profile.UserProfile.constructor` | src/components/UserProfile.tsx:20-31 | The component starts in the initial state |
| `Profile.UserProfile.HandleInputChange` | src/components/UserProfile.tsx:33-35 | The state moves as `InputChange` says |
| `Profile.UserProfile.HandleSave` | src/components/UserProfile.tsx:37-49 | The state moves as `Save` says, and exactly one success notice is emitted |
| `Profile.UserProfile.HandleCancel` | src/components/UserProfile.tsx:57-64 | The state moves as `Cancel` says, and exactly one warning notice is emitted |
| `Profile.UserProfile.HandleStartEdit` | src/components/UserProfile.tsx:66-69 | The state moves as `StartEdit` says |
| `Products.ApplyEdit` | src/components/ProductDetail.tsx:171-175 | The named field holds the new value; the id and every other field are kept |
| `Products.ReplaceById` | src/components/ProductDetail.tsx:77 | Same length; each entry with the id becomes the new product and every other entry is kept in place |
| `Products.RemoveById` | src/components/ProductDetail.tsx:102 | No remaining product carries the id, and the list does not grow |
| `Products.RemoveByIdMembers` | src/components/ProductDetail.tsx:102 | A product remains exactly when it was listed and does not carry the id |
| `Products.ReplaceByIdKeepsUnique` | src/components/ProductDetail.tsx:77 | Replacing by id with a product of that id keeps ids unique |
| `Products.ReplaceWithSelf` | src/components/ProductDetail.tsx:155 | With unique ids, writing a listed product back over its own id leaves the list unchanged |
| `Products.ReplaceUniqueAt` | src/components/ProductDetail.tsx:77 | With unique ids, replacing the id at position k rewrites that position only |
| `Products.RemoveByIdKeepsOrder` | src/components/ProductDetail.tsx:102 | The remaining products keep their relative order |
| `Products.RemoveByIdAbsent` | src/components/ProductDetail.tsx:158 | Removing an id that no product carries is a no-op |
| `Products.RemoveByIdAppend` | src/components/ProductDetail.tsx:158 | Removal distributes over concatenation of lists |
| `Products.RemoveByIdKeepsUnique` | src/components/ProductDetail.tsx:102 | Removal keeps ids unique |
| `Products.RemoveUniqueAt` | src/components/ProductDetail.tsx:102 | With unique ids, removing the id at position k yields the list with exactly that position cut out |
| `Catalog.RemovedNotice` | src/components/ProductDetail.tsx:105 | The delete notice is a warning whose message names the product between double quotes |
| `Catalog.NewProduct` | src/components/ProductDetail.tsx:125-134 | The placeholder product has the given id, the name "New Product", the description "Product description", price 0, quantity 0, unit "lb", category "Vegetables" and the placeholder image; so its unit and category are among the options the edit form offers |
| `Catalog.Initial` | src/components/ProductDetail.tsx:21-61 | Starts coherent with the three seed products, not editing, modal closed |
| `Catalog.StartEdit` | src/components/ProductDetail.tsx:66-70 | Snapshot and working copy both become the chosen product and editing starts; the list, the delete slot, the modal and the add form are unchanged; coherence is kept |
| `Catalog.UpdateEditing` | src/components/ProductDetail.tsx:171-175 | Only the named field of the working copy changes; the list and snapshot are untouched; a no-op with no working copy |
| `Catalog.Save` | src/components/ProductDetail.tsx:72-85 | Entries with the working copy's id become the working copy and all others stay in place; the edit session ends; the delete slot is untouched; a no-op with no working copy |
| `Catalog.RequestDelete` | src/components/ProductDetail.tsx:94-97 | The product becomes pending and the modal opens; the list, the edit state and the add form are unchanged |
| `Catalog.ConfirmDelete` | src/components/ProductDetail.tsx:99-116 | A product survives exactly when it was listed and does not carry the pending id, and the survivors keep their relative order; with nothing pending the list is unchanged; the slot is cleared and the modal closed in every case; edit state and add form are untouched |
| `Catalog.CancelDelete` | src/components/ProductDetail.tsx:118-121 | The slot is cleared and the modal closed; the list, the edit state and the add form are unchanged |
| `Catalog.Add` | src/components/ProductDetail.tsx:123-140 | Appends the placeholder product at the end; it becomes the working copy with no snapshot, editing on, add form hidden; the delete slot and modal are unchanged |
| `Catalog.Cancel` | src/components/ProductDetail.tsx:152-164 | With a snapshot, entries with the edited id become the snapshot and the rest stay in place; without one, a product survives exactly when it was listed and does not carry the edited id, in its original relative order; all edit state is cleared; the delete slot and modal are unchanged |
| `Catalog.SaveKeepsCoherent` | src/components/ProductDetail.tsx:72-85 | Save keeps the invariant |
| `Catalog.ConfirmDeleteKeepsCoherent` | src/components/ProductDetail.tsx:99-116 | Confirm-delete keeps the invariant |
| `Catalog.AddKeepsCoherent` | src/components/ProductDetail.tsx:123-140 | Add with a fresh id keeps the invariant, including unique ids |
| `Catalog.CancelKeepsCoherent` | src/components/ProductDetail.tsx:152-164 | Cancel keeps the invariant |
| `Catalog.UpdateAllKeeps` | src/components/ProductDetail.tsx:171-175 | Any run of field updates changes only the working copy and never its id |
| `Catalog.AddThenCancel` | src/components/ProductDetail.tsx:123-175 | Add, any field updates, then cancel gives exactly the original list in its original order, with no edit session left |
| `Catalog.EditThenCancel` | src/components/ProductDetail.tsx:66-175 | Edit a listed product, any field updates, then cancel gives exactly the pre-edit list |
| `Catalog.SaveReplacesOne` | src/components/ProductDetail.tsx:72-85 | With unique ids, save rewrites exactly the one entry with the working copy's id and leaves every other entry as it was |
| `Catalog.ConfirmDeleteRemovesOne` | src/components/ProductDetail.tsx:99-116 | Confirming the deletion of a listed product removes exactly that product; the list shrinks by one and the rest keep their order |
| `Catalog.CancelNewRemovesOne` | src/components/ProductDetail.tsx:152-164 | Cancelling a never-saved product that is still listed at some position removes exactly that entry, whatever else changed in the list since it was added; the list shrinks by one |
| `Catalog.RequestThenCancelDelete` | src/components/ProductDetail.tsx:94-121 | Requesting then cancelling a deletion restores the state |
| `Catalog.SecondEditKeepsNewProduct` | src/components/ProductDetail.tsx:66-164 | Starting an edit of another product while a new product is unsaved, then cancelling, leaves the new product in the list |
| `Catalog.SeedUnitNotOffered` | src/components/ProductDetail.tsx:39-64 | A seed product's unit is not among the units the form offers |
| `Catalog.SeedAddThenCancel` | src/components/ProductDetail.tsx:22-164 | From the seed list, add gives four products with "New Product" last, and cancel gives back the three seed products |
| `Catalog.SeedEditPriceThenSave` | src/components/ProductDetail.tsx:66-175 | Editing the tomatoes' price to 129.99 and saving commits that price and leaves the other two products untouched |
| `Catalog.ProductDetail.constructor` | src/components/ProductDetail.tsx:21-61 | The component starts in the initial, coherent state |
| `Catalog.ProductDetail.HandleEditProduct` | src/components/ProductDetail.tsx:66-70 | The state moves as `StartEdit` says and stays coherent |
| `Catalog.ProductDetail.HandleSaveProduct` | src/components/ProductDetail.tsx:72-92 | The state moves as `Save` says; one success notice is emitted exactly when there was a working copy |
| `Catalog.ProductDetail.HandleDeleteClick` | src/components/ProductDetail.tsx:94-97 | The state moves as `RequestDelete` says |
| `Catalog.ProductDetail.HandleConfirmDelete` | src/components/ProductDetail.tsx:99-116 | The state moves as `ConfirmDelete` says; one warning naming the product is emitted exactly when one was pending |
| `Catalog.ProductDetail.HandleCancelDelete` | src/components/ProductDetail.tsx:118-121 | The state moves as `CancelDelete` says |
| `Catalog.ProductDetail.HandleAddProduct` | src/components/ProductDetail.tsx:123-150 | Requires a fresh clock id; the state moves as `Add` says; one success notice is emitted |
| `Catalog.ProductDetail.HandleCancel` | src/components/ProductDetail.tsx:152-169 | The state moves as `Cancel` says; exactly one warning notice is emitted |
| `Catalog.ProductDetail.UpdateEditingProduct` | src/components/ProductDetail.tsx:171-175 | The state moves as `UpdateEditing` says |

## Left out

- Rendering is not modelled: JSX, styling, icons, the navigation bar, the page layout and footer, the confirmation modal's look, and the toast container's stacking order.
- The toast auto-dismiss timer (`setTimeout`/`clearTimeout` in the toast's effect) is not modelled. Its only effect on state is a `removeToast(id)` call, which is `Toasts.ToastStore.RemoveToast`.
- Both saves wait 500 ms before committing. The model commits at once, using the values captured when Save was clicked. Overlapping saves are not modelled.
- The `try`/`catch` branches that show error toasts are not modelled. Nothing inside the `try` blocks can throw synchronously.
- `Date.now()` is not modelled. Every clock id is a parameter, and `Catalog.Add` / `Catalog.ProductDetail.HandleAddProduct` require the id to be unused by the listed products.
- Input parsing (`parseFloat`, `parseInt`, `|| 0`) and price display (`toFixed`) are not modelled. A price is an exact `real` and a quantity is an `int`, both already parsed.
- `Toasts.EffectiveDuration`: a `NaN` duration, which `||` also replaces by 4000, is not modelled, because durations are integers here.
- `Catalog.ProductDetail.UpdateEditingProduct`: an update of the `id` key is not modelled, and neither is a value of the wrong type for its field. The handler's parameter type admits both, but no caller passes either. An `id` update would also break cancel's restore by id.
- `onToastShow` is optional in both components. The model treats it as always supplied, as the page does, and returns each call as a `Notice`. The page's forwarding of notices to `showSuccess`, `showError` and `showWarning` is not modelled.
- The inline "Photo upload feature coming soon" warnings are not modelled; they are button callbacks outside the handlers.
- Only add and cancel touch the `showAddForm` flag in the model (both reset it). The inline buttons that open and close the add form are not modelled.
- The `console.log` call in the profile save is not modelled.
