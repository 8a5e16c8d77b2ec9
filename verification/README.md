# camApp product store, modelled in Dafny

camApp is a small mobile product catalogue. The user photographs an item and enters a title, a
description and a price. The app keeps the products in a list that lives in memory and is
mirrored, as one whole value, under the single key `productos` of the device's key-value
storage (Capacitor Preferences).

This project models two parts of the app:

- The **product service** (`ProductService`, module `ProductStore`). It loads the list from storage
  (`cargarProductos`) and returns it, reloading only when the list is empty (`obtenerProductos`).
  It appends a product whose id is the current time (`agregarProducto`) and removes products by
  id (`eliminarProducto`). Each write rewrites the whole list under the one key.
- The **create page** (`ProductCreatePage`, module `ProductCreate`). Its save action
  (`guardarProducto`) returns silently unless the title, the price and the photo are all truthy.
  Otherwise it makes exactly one append and then navigates back to `/`. Its photo action
  (`tomarFoto`) copies the camera service's file name and display string into the form.

The store's operations are stated as functions on a `Snapshot` (the list in memory and the whole
storage map). The classes' methods are proved to follow those functions, and the lemmas are proved
about the functions. Those lemmas cover: no drift between memory and storage, no write to other
keys, the filter's order and multiplicity, id uniqueness under a strictly increasing clock, and
the same-millisecond collision. The camera service contributes only its file-name rule (`<time>.jpeg`)
and its data-URL rule (MIME prefix, or `""` when the file cannot be read). The record type's own
declaration file is not part of this model; its fields are rebuilt from how the code uses them.

Two behaviours of the code that the model keeps as they are:

- `rutaFotoBase64` is filled in only for display, but nothing strips it before a write. The spread
  in `agregarProducto` (src/app/services/product.service.ts:52) copies it, and `JSON.stringify` at
  lines 60 and 70 writes it out with every record that carries it. The model therefore keeps that
  field in `ProductFields` and in the stored records. `SavedFormsStoreNoDisplayString` shows that
  the create page itself never passes one in.
- A stored value that fails to parse makes `JSON.parse` at src/app/services/product.service.ts:27
  throw, and nothing catches it. Parsing is abstracted here (see "Left out").

The comment at src/app/services/product.service.ts:46 calls the timestamp id unique. The code
delivers that only while the clock moves forward between adds. `SameInstantCollides` models the
code as written: two adds in the same millisecond produce the same id. `StampAfterIdsKeepsDistinct`
and `RunKeepsIdsDistinct` give the guarantee that does hold: ids stay distinct when every add's
timestamp is later than all existing ids.

## Model

| member | source | states |
|---|---|---|
| `Products.Stamped` | src/app/services/product.service.ts:52 | the new record's id is the timestamp, and dropping the id gives back exactly the fields passed in |
| `Products.Without` | src/app/services/product.service.ts:67 | the filter leaves no record with the id; every other record keeps its multiplicity; the list never grows |
| `Products.WithoutIsSubsequence` | src/app/services/product.service.ts:67 | the records kept by the filter stay in their original relative order |
| `Products.WithoutAbsent` | src/app/services/product.service.ts:67 | removing an id that no record carries leaves the list unchanged |
| `Products.WithoutIdempotent` | src/app/services/product.service.ts:67 | removing the same id twice is the same as removing it once |
| `Products.WithoutAppend` | src/app/services/product.service.ts:67 | the filter distributes over concatenation, which is what preserving order means piece by piece |
| `Products.WithoutKeepsDistinct` | src/app/services/product.service.ts:67 | removing never creates duplicate ids |
| `Products.AppendDistinctIff` | src/app/services/product.service.ts:52-55 | pushing a record keeps ids distinct if and only if its id is not already in the list |
| `Products.StampAfterIdsKeepsDistinct` | src/app/services/product.service.ts:46-55 | a timestamp later than every existing id gives a fresh id, so ids stay distinct |
| `Products.SameInstantCollides` | src/app/services/product.service.ts:52 | two adds in the same millisecond produce the same id: uniqueness depends on the clock advancing |
| `ProductStore.LoadIsConsistent` | src/app/services/product.service.ts:22-28 | loading sets the list to the stored list (empty when the key is absent) and does not change storage; loading an already-mirrored state changes nothing |
| `ProductStore.ListSpec` | src/app/services/product.service.ts:35-42 | a non-empty list is returned unchanged whatever storage holds; an empty list is reloaded first and the loaded list is returned; storage is untouched |
| `ProductStore.AddSpec` | src/app/services/product.service.ts:50-62 | add grows the list by one stamped record at the end, keeps earlier records in place, stores exactly the new list under the key and no other key changes |
| `ProductStore.RemoveSpec` | src/app/services/product.service.ts:65-71 | remove leaves no record with the id, keeps the others in order and multiplicity, is the identity when the id is absent, stores exactly the new list and no other key changes |
| `ProductStore.ReloadAfterWrite` | src/app/services/product.service.ts:22-71 | reloading right after an add or a remove gives back exactly the list that was written |
| `ProductStore.RemoveThenList` | src/app/services/product.service.ts:35-71 | listing after removing an id returns the filtered list and never a record with that id |
| `ProductStore.AddThenList` | src/app/services/product.service.ts:35-62 | listing after an add returns the earlier records followed by one record carrying the added title, description, price and photo |
| `ProductStore.RunKeepsMirrored` | src/app/services/product.service.ts:22-71 | once storage mirrors memory, it does so after any sequence of loads, lists, adds and removes |
| `ProductStore.RunEndingInWriteIsMirrored` | src/app/services/product.service.ts:50-71 | after any sequence of calls that ends in an add or a remove, storage mirrors memory, whatever the starting state |
| `ProductStore.RunKeepsConsistent` | src/app/services/product.service.ts:22-71 | a reload never yields anything but the list in memory, across any sequence of calls |
| `ProductStore.RunKeepsIdsDistinct` | src/app/services/product.service.ts:46-71 | ids stay distinct across any sequence of calls whose adds happen at strictly increasing times later than every existing id |
| `ProductStore.Preferences.Get` | src/app/services/product.service.ts:24 | storage read: the stored value when the key is present, nothing when it is absent |
| `ProductStore.Preferences.Set` | src/app/services/product.service.ts:58-61 | storage write: only the given key changes |
| `ProductStore.ProductService.constructor` | src/app/services/product.service.ts:13-16 | a new service holds the loaded list and leaves storage unchanged |
| `ProductStore.ProductService.CargarProductos` | src/app/services/product.service.ts:22-28 | the method performs `Load`; afterwards memory is consistent with storage |
| `ProductStore.ProductService.ObtenerProductos` | src/app/services/product.service.ts:35-42 | the method performs `List` and returns its list |
| `ProductStore.ProductService.AgregarProducto` | src/app/services/product.service.ts:50-62 | the method performs `Add`; afterwards storage mirrors memory |
| `ProductStore.ProductService.EliminarProducto` | src/app/services/product.service.ts:65-71 | the method performs `Remove`; afterwards storage mirrors memory |
| `Camera.Decimal` | src/app/services/camera.service.ts:71 | a timestamp's text is a non-empty string of decimal digits |
| `Camera.DecimalRoundTrip` | src/app/services/camera.service.ts:71 | reading the decimal text back gives the timestamp |
| `Camera.FileNameNonEmpty` | src/app/services/camera.service.ts:71 | a saved photo's name is never empty, so it is always truthy |
| `Camera.FileNameInjective` | src/app/services/camera.service.ts:70-71 | photos taken at different times are saved under different names |
| `Camera.Displayable` | src/app/services/camera.service.ts:84-103 | the display string is empty exactly when the file cannot be read; otherwise it is the JPEG data-URL prefix followed by the file's content |
| `Camera.CameraService.TomarFoto` | src/app/services/camera.service.ts:14-28 | a capture at a given time sets the service's `rutaFoto` to that time's file name and returns it |
| `ProductCreate.SaveGate` | src/app/pages/product-create/product-create.page.ts:48-56 | the form passes if and only if the title is non-empty, the price is present and non-zero (negatives pass) and the photo name is present and non-empty; a passing form carries its title, description, price and photo and no display string |
| `ProductCreate.SaveGateIgnoresDescription` | src/app/pages/product-create/product-create.page.ts:48-53 | the description, empty or not, never decides whether the form passes |
| `ProductCreate.SavedFormsStoreNoDisplayString` | src/app/pages/product-create/product-create.page.ts:51-56 | if the list in memory carries no display string (and mirrors storage), a save through the form or a remove stores none; the list view does put display strings on the service's own records (see "Aliasing" under "Left out"), and the next write then stores them |
| `ProductCreate.NavController.NavigateBack` | src/app/pages/product-create/product-create.page.ts:59 | a back-navigation is recorded with its target |
| `ProductCreate.ProductCreatePage.constructor` | src/app/pages/product-create/product-create.page.ts:16-27 | a new form has an empty title and description and no price or photo |
| `ProductCreate.ProductCreatePage.TomarFoto` | src/app/pages/product-create/product-create.page.ts:33-39 | the form's photo becomes the camera's file name; the display string is set only when that name is truthy, which it always is |
| `ProductCreate.ProductCreatePage.GuardarProducto` | src/app/pages/product-create/product-create.page.ts:46-60 | a rejected form changes neither the store nor the navigation; an accepted one makes exactly one add of the form's fields and then one navigation back to `/` |

## Left out

- JSON text: `JSON.stringify` and `JSON.parse` are abstracted as an exact round trip. Storage maps each key to the decoded list. A stored value that is not valid JSON (which would throw), an empty string, or `"null"` is not modelled.
- Asynchrony: every `await`ed call is taken to complete atomically and in sequence. This includes the constructor's un-awaited load, which is taken to finish before anything else runs. Interleavings are not modelled.
- Storage write failures: these propagate uncaught and would leave memory ahead of storage. They are not modelled.
- Aliasing: `obtenerProductos` returns the service's own array, and `push` changes it in place. The model returns a value, so a caller that mutates the returned array (the list view writes display strings into it) is not modelled.
- Prices: JavaScript numbers are modelled as integers. Fractional prices and `NaN` (which is falsy) are not modelled.
- Clock: `Date.now()` and `new Date().getTime()` are method parameters (`now`, `time`).
- Camera capture: `Camera.getPhoto`, `fetch`, `FileReader` and `Filesystem.writeFile`/`readFile` are device I/O. The private file area is a parameter `files` that maps names to base64 content, and the console log on a read failure is dropped. A capture does not add its file to `files`, although the camera service writes the file (src/app/services/camera.service.ts:74-78) before the page reads it back. So in the model, a photo just taken displays as the empty string unless the caller's `files` already holds that name.
- The list view (`src/app/home/home.page.ts`) and the routing table (`src/app/app.routes.ts`) are UI glue and are not part of this model.
