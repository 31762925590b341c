/** The "Edit Merchandise" page: loading an item into the form (list fields
    joined with ", ", anything that is not an array cleared) and saving the
    form back (list fields split, trimmed and filtered). The backend's replies
    are inputs. */
module EditMerchandise {
  import opened JsValues
  import opened CommaList
  import opened FormKit
  import Api

  const LoadFailed: string := "Failed to load merchandise"
  const SaveFailed: string := "Failed to save merchandise"
  const Updated: string := "Merchandise updated"
  const ProductsRoute: string := "/products"

  /** The form. The scalar fields hold whatever the loaded item held; the list
      fields are always text, because `load` writes either a joined array or
      `""` and the inputs write text. */
  datatype MerchandiseForm = MerchandiseForm(
    name: Val,
    description: Val,
    price: Val,
    quantity: Val,
    images: string,
    sizeOptions: string,
    colorOptions: string)

  const EmptyForm: MerchandiseForm :=
    MerchandiseForm(Str(""), Str(""), Str(""), Str(""), "", "", "")

  /** `Array.isArray(v) ? v.join(", ") : ""` */
  function ListText(v: Val): (t: string)
    ensures v.Arr? ==> t == Joined(v)
    ensures !v.Arr? ==> t == ""
  {
    if v.Arr? then Joined(v) else ""
  }

  /** The form `load` writes from `data.merchandise`. */
  function LoadedForm(m: Val): MerchandiseForm
  {
    MerchandiseForm(
      Or(Field(m, "name"), Str("")),
      Or(Field(m, "description"), Str("")),
      Coalesce(Field(m, "price"), Str("")),
      Coalesce(Field(m, "quantity"), Str("")),
      ListText(Field(m, "images")),
      ListText(Field(m, "size_options")),
      ListText(Field(m, "color_options")))
  }

  /** The update payload. A property that is `None` is undefined. */
  datatype MerchandiseUpdate = MerchandiseUpdate(
    name: Val,
    description: Option<PayloadValue>,
    price: Option<PayloadValue>,
    quantity: Option<PayloadValue>,
    images: Option<PayloadValue>,
    colorOptions: Option<PayloadValue>,
    sizeOptions: Option<PayloadValue>)

  /** A list field of this form: left out when empty, else the parsed items.
      A text has `split`, so this never throws. */
  function ListPayload(text: string): (r: Option<PayloadValue>)
    ensures r.None? <==> text == ""
    ensures r.Some? ==> r.value == Strings(ParseList(text))
  {
    var c := ListFieldOf(Str(text));
    assert !c.Throws?;
    Payloaded(c)
  }

  function UpdatePayload(f: MerchandiseForm): (p: MerchandiseUpdate)
    ensures p.name == f.name
    ensures p.description.Some? <==> Truthy(f.description)
    ensures p.description.Some? ==> p.description.value == Value(f.description)
    ensures p.price.Some? <==> f.price != Str("")
    ensures p.price.Some? ==> p.price.value == ParsedFloat(f.price)
    ensures p.quantity.Some? <==> f.quantity != Str("")
    ensures p.quantity.Some? ==> p.quantity.value == ParsedInt(f.quantity)
    ensures p.images == ListPayload(f.images)
    ensures p.colorOptions == ListPayload(f.colorOptions)
    ensures p.sizeOptions == ListPayload(f.sizeOptions)
  {
    MerchandiseUpdate(
      f.name,
      OrUndefined(f.description),
      NumberField(f.price, false),
      NumberField(f.quantity, true),
      ListPayload(f.images),
      ListPayload(f.colorOptions),
      ListPayload(f.sizeOptions))
  }

  /** The backend calls the page makes. */
  datatype Call =
    | GetMerchandise(id: string)
    | UpdateMerchandise(id: string, payload: MerchandiseUpdate)

  datatype PageState = PageState(
    form: MerchandiseForm,
    loading: bool,
    saving: bool,
    calls: seq<Call>,
    toasts: seq<Toast>,
    navigatedTo: Option<string>)

  const InitialState: PageState := PageState(EmptyForm, true, false, [], [], None)

  /** `load`: without an id nothing happens. A failed reply leaves the form as
      it was and ends loading; a reply whose `merchandise` is null or missing
      makes `m.merchandise.name` throw, so loading never ends; otherwise the
      form is filled and loading ends. */
  function LoadSpec(st: PageState, id: Option<string>, reply: Api.ApiResponse): PageState
  {
    if !HasId(id) then st
    else
      var st1 := st.(calls := st.calls + [GetMerchandise(id.value)]);
      if Api.Failed(reply) then
        st1.(toasts := st1.toasts + [Failure(Or(ErrorOf(reply), Str(LoadFailed)))], loading := false)
      else if Nullish(Field(reply.data, "merchandise")) then st1
      else st1.(form := LoadedForm(Field(reply.data, "merchandise")), loading := false)
  }

  /** `onSubmit`: without an id nothing happens; otherwise the update is sent
      and `saving` ends false whatever the reply. */
  function SubmitSpec(st: PageState, id: Option<string>, reply: Api.ApiResponse): PageState
  {
    if !HasId(id) then st
    else
      var st1 := st.(calls := st.calls + [UpdateMerchandise(id.value, UpdatePayload(st.form))]);
      if reply.Error? then
        st1.(toasts := st1.toasts + [Failure(Or(reply.error, Str(SaveFailed)))], saving := false)
      else
        st1.(toasts := st1.toasts + [Success(Updated)], navigatedTo := Some(ProductsRoute), saving := false)
  }

  // ---------------------------------------------------------------------------
  // Properties

  /** Loading an item whose list fields are arrays of proper items and saving
      the form unchanged sends the same items back; an empty array is left out. */
  lemma LoadSaveRoundTrip(m: Val, images: seq<string>, sizes: seq<string>, colors: seq<string>)
    requires Field(m, "images") == Arr(Strs(images))
    requires Field(m, "size_options") == Arr(Strs(sizes))
    requires Field(m, "color_options") == Arr(Strs(colors))
    requires forall k :: 0 <= k < |images| ==> IsListItem(images[k])
    requires forall k :: 0 <= k < |sizes| ==> IsListItem(sizes[k])
    requires forall k :: 0 <= k < |colors| ==> IsListItem(colors[k])
    ensures var p := UpdatePayload(LoadedForm(m));
            p.images == (if images == [] then None else Some(Strings(images)))
            && p.sizeOptions == (if sizes == [] then None else Some(Strings(sizes)))
            && p.colorOptions == (if colors == [] then None else Some(Strings(colors)))
  {
    ListFieldRoundTrip(images);
    ListFieldRoundTrip(sizes);
    ListFieldRoundTrip(colors);
  }

  /** A list field that did not arrive as an array is cleared by `load` and
      left out of the next save. */
  lemma NonArrayListLeftOut(m: Val)
    requires !Field(m, "images").Arr?
    ensures LoadedForm(m).images == ""
    ensures UpdatePayload(LoadedForm(m)).images.None?
  {
  }

  /** With an id, a save is always sent: it issues exactly the update call
      with the payload of the current form, ends with `saving` false whatever
      the reply, and navigates back to the product list only on success. */
  lemma SaveSent(st: PageState, id: string, reply: Api.ApiResponse)
    requires id != ""
    ensures var s := SubmitSpec(st, Some(id), reply);
            !s.saving && s.calls == st.calls + [UpdateMerchandise(id, UpdatePayload(st.form))]
            && s.form == st.form && s.loading == st.loading
            && (reply.Error? ==> s.toasts == st.toasts + [Failure(reply.error)] && s.navigatedTo == st.navigatedTo)
            && (reply.Data? ==> s.toasts == st.toasts + [Success(Updated)] && s.navigatedTo == Some(ProductsRoute))
  {
  }

  /** A failed load leaves the form untouched, shows the server's error (or
      the fallback text) and ends loading. */
  lemma FailedLoadKeepsForm(st: PageState, id: string, reply: Api.ApiResponse)
    requires id != "" && Api.Failed(reply)
    ensures var s := LoadSpec(st, Some(id), reply);
            s.form == st.form && !s.loading
            && s.toasts == st.toasts + [Failure(if reply.Error? then reply.error else Str(LoadFailed))]
  {
  }

  /** Without a route id neither the load nor the update is issued and
      nothing changes. */
  lemma MissingIdDoesNothing(st: PageState, id: Option<string>, r1: Api.ApiResponse, r2: Api.ApiResponse)
    requires !HasId(id)
    ensures LoadSpec(st, id, r1) == st && SubmitSpec(st, id, r2) == st
  {
  }

  /** A reply without `merchandise` makes the load throw after the request
      went out: the form stays as it was and loading never ends. */
  lemma MissingMerchandiseKeepsLoading(st: PageState, id: string, reply: Api.ApiResponse)
    requires id != "" && !Api.Failed(reply) && Nullish(Field(reply.data, "merchandise"))
    ensures var s := LoadSpec(st, Some(id), reply);
            s.form == st.form && s.loading == st.loading && s.calls == st.calls + [GetMerchandise(id)]
  {
  }

  // ---------------------------------------------------------------------------
  // The component

  class EditMerchandisePage {
    var form: MerchandiseForm
    var loading: bool
    var saving: bool
    var calls: seq<Call>
    var toasts: seq<Toast>
    var navigatedTo: Option<string>

    function State(): PageState
      reads this
    {
      PageState(form, loading, saving, calls, toasts, navigatedTo)
    }

    constructor()
      ensures State() == InitialState
    {
      form := EmptyForm;
      loading := true;
      saving := false;
      calls := [];
      toasts := [];
      navigatedTo := None;
    }

    /** `load`; `threw` tells that it ended in a TypeError. */
    method Load(id: Option<string>, reply: Api.ApiResponse) returns (threw: bool)
      modifies this
      ensures State() == LoadSpec(old(State()), id, reply)
      ensures threw <==> HasId(id) && !Api.Failed(reply) && Nullish(Field(reply.data, "merchandise"))
    {
      threw := false;
      if !HasId(id) {
        return;
      }
      calls := calls + [GetMerchandise(id.value)];
      if Api.Failed(reply) {
        toasts := toasts + [Failure(Or(ErrorOf(reply), Str(LoadFailed)))];
        loading := false;
        return;
      }
      var m := Field(reply.data, "merchandise");
      if Nullish(m) {
        return true;
      }
      form := LoadedForm(m);
      loading := false;
    }

    /** `onSubmit`. */
    method Submit(id: Option<string>, reply: Api.ApiResponse)
      modifies this
      ensures State() == SubmitSpec(old(State()), id, reply)
    {
      if !HasId(id) {
        return;
      }
      saving := true;
      calls := calls + [UpdateMerchandise(id.value, UpdatePayload(form))];
      if reply.Error? {
        toasts := toasts + [Failure(Or(reply.error, Str(SaveFailed)))];
      } else {
        toasts := toasts + [Success(Updated)];
        navigatedTo := Some(ProductsRoute);
      }
      saving := false;
    }
  }
}
