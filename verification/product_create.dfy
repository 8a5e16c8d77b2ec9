/**
 * The product-create page: a form (title, description, price, photo) whose save button appends
 * one product to the store and navigates back to the list, but only when the title, the price
 * and the photo are all present.
 */
module ProductCreate {
  import opened Wrappers
  import opened Products
  import opened ProductStore
  import opened Camera

  /** JavaScript truthiness of the form's values: a string is truthy when non-empty, a number
      when it is not 0, and `null` never is. */
  predicate TruthyString(s: string) { s != [] }
  predicate TruthyOptString(o: Option<string>) { o.Some? && o.value != [] }
  predicate TruthyNumber(o: Option<int>) { o.Some? && o.value != 0 }

  /** The save gate of `guardarProducto`: the product to add, or nothing when the guard
      returns early. The description is never checked and the photo's display string is
      never passed on. */
  function SaveGate(titulo: string, descripcion: string, precio: Option<int>, rutaFoto: Option<string>)
    : (r: Option<ProductFields>)
    ensures r.Some? <==>
      |titulo| > 0 && precio.Some? && precio.value != 0 && rutaFoto.Some? && |rutaFoto.value| > 0
    ensures r.Some? ==>
      r.value.titulo == titulo && r.value.descripcion == descripcion
      && r.value.precio == precio.value && r.value.rutaFoto == rutaFoto.value
      && r.value.rutaFotoBase64 == None
  {
    if !TruthyString(titulo) || !TruthyNumber(precio) || !TruthyOptString(rutaFoto) then None
    else Some(ProductFields(titulo, descripcion, precio.value, rutaFoto.value, None))
  }

  /** The gate does not look at the description: an empty one saves like any other, and a
      negative price passes as long as it is not zero. */
  lemma SaveGateIgnoresDescription(titulo: string, d1: string, d2: string, precio: Option<int>, rutaFoto: Option<string>)
    ensures SaveGate(titulo, d1, precio, rutaFoto).Some? == SaveGate(titulo, d2, precio, rutaFoto).Some?
    ensures SaveGate(titulo, "", precio, rutaFoto).Some? == SaveGate(titulo, d1, precio, rutaFoto).Some?
  {
  }

  /** No record of the list carries a display string. */
  predicate NoDisplayStrings(ps: seq<Product>) {
    forall i :: 0 <= i < |ps| ==> ps[i].rutaFotoBase64.None?
  }

  /** Products saved through the form never carry a display string into storage: if no stored
      record has one, none has one after a save that passes the gate, nor after a remove. */
  lemma SavedFormsStoreNoDisplayString(s: Snapshot, titulo: string, descripcion: string,
                                       precio: Option<int>, rutaFoto: Option<string>, now: int, id: int)
    requires Mirrored(s) && NoDisplayStrings(s.productos)
    ensures var form := SaveGate(titulo, descripcion, precio, rutaFoto);
      form.Some? ==> NoDisplayStrings(Loaded(Add(s, form.value, now).storage))
    ensures NoDisplayStrings(Loaded(Remove(s, id).storage))
  {
    var kept := Without(s.productos, id);
    forall i | 0 <= i < |kept| ensures kept[i].rutaFotoBase64.None? {
      assert multiset(kept)[kept[i]] > 0;
      assert kept[i] in s.productos;
    }
  }

  /** The Ionic navigation controller, reduced to the back-navigations it was asked for. */
  class NavController {
    var backNavigations: seq<string>

    constructor()
      ensures backNavigations == []
    {
      backNavigations := [];
    }

    method NavigateBack(url: string)
      modifies this
      ensures backNavigations == old(backNavigations) + [url]
    {
      backNavigations := backNavigations + [url];
    }
  }

  class ProductCreatePage {
    var titulo: string
    var descripcion: string
    var precio: Option<int>
    var rutaFoto: Option<string>
    var rutaFotoBase64: Option<string>

    const cameraService: CameraService
    const productService: ProductService
    const navCtrl: NavController

    /** A fresh page: empty title and description, no price and no photo. */
    constructor(cameraService: CameraService, productService: ProductService, navCtrl: NavController)
      ensures this.cameraService == cameraService && this.productService == productService
      ensures this.navCtrl == navCtrl
      ensures titulo == "" && descripcion == "" && precio == None
      ensures rutaFoto == None && rutaFotoBase64 == None
    {
      this.cameraService := cameraService;
      this.productService := productService;
      this.navCtrl := navCtrl;
      titulo := "";
      descripcion := "";
      precio := None;
      rutaFoto := None;
      rutaFotoBase64 := None;
    }

    /** `tomarFoto`: take a photo at `time`, copy the camera service's file name into the form
        and, when that name is truthy, the display string read back from the private file area
        `files`. Since a saved file's name is never empty, the display string is always set. */
    method TomarFoto(time: nat, files: map<string, string>)
      modifies this, cameraService
      ensures rutaFoto == cameraService.rutaFoto == Some(FileName(time))
      ensures rutaFotoBase64 ==
        if TruthyOptString(rutaFoto) then Some(Displayable(files, rutaFoto.value)) else old(rutaFotoBase64)
      ensures rutaFotoBase64 == Some(Displayable(files, FileName(time)))
      ensures titulo == old(titulo) && descripcion == old(descripcion) && precio == old(precio)
    {
      var _ := cameraService.TomarFoto(time);
      rutaFoto := cameraService.rutaFoto;
      if rutaFoto.Some? && rutaFoto.value != [] {
        rutaFotoBase64 := Some(Displayable(files, rutaFoto.value));
      }
      FileNameNonEmpty(time);
    }

    /** `guardarProducto` at time `now`: when the gate rejects the form nothing happens at all;
        otherwise exactly one add of the form's fields is made and then one navigation back to
        the list. */
    method GuardarProducto(now: int)
      modifies productService, productService.prefs, navCtrl
      ensures var form := SaveGate(titulo, descripcion, precio, rutaFoto);
        if form.None? then
          productService.State() == old(productService.State())
          && navCtrl.backNavigations == old(navCtrl.backNavigations)
        else
          productService.State() == Add(old(productService.State()), form.value, now)
          && navCtrl.backNavigations == old(navCtrl.backNavigations) + ["/"]
    {
      if !TruthyString(titulo) || !TruthyNumber(precio) || !TruthyOptString(rutaFoto) {
        return;
      }
      productService.AgregarProducto(
        ProductFields(titulo, descripcion, precio.value, rutaFoto.value, None), now);
      navCtrl.NavigateBack("/");
    }
  }

  /** From an empty store, saving a lamp priced 20 with photo "123.jpeg" and then listing gives
      exactly that one product. */
  method SaveThenListScenario(now: int)
  {
    var prefs := new Preferences(map[]);
    var service := new ProductService(prefs);
    var camera := new CameraService();
    var nav := new NavController();
    var page := new ProductCreatePage(camera, service, nav);
    page.titulo := "Lamp";
    page.precio := Some(20);
    page.rutaFoto := Some("123.jpeg");
    page.GuardarProducto(now);
    var listed := service.ObtenerProductos();
    assert listed == [Product(now, "Lamp", "", 20, "123.jpeg", None)];
    assert nav.backNavigations == ["/"];
  }
}
