/** The "Edit Part" page: loading a part into the form (list fields joined
    with ", ") and saving the form back (list fields split, trimmed and
    filtered). The backend's replies are inputs. */
module EditPart {
  import opened JsValues
  import opened CommaList
  import opened FormKit
  import Api

  const LoadFailed: string := "Failed to load part"
  const SaveFailed: string := "Failed to save part"
  const Updated: string := "Part updated"
  const ProductsRoute: string := "/products"

  /** The form. Its values are whatever the loaded part held, so any value. */
  datatype PartForm = PartForm(
    brandId: Val,
    categoryId: Val,
    name: Val,
    description: Val,
    originalPrice: Val,
    sellingPrice: Val,
    quantity: Val,
    weight: Val,
    images: Val,
    colorOptions: Val,
    compatibility: Val)

  const EmptyForm: PartForm :=
    PartForm(Str(""), Str(""), Str(""), Str(""), Str(""), Str(""), Str(""), Str(""), Str(""), Str(""), Str(""))

  /** `Array.isArray(v) ? v.join(", ") : v || ""` */
  function ListText(v: Val): (t: Val)
    ensures v.Arr? ==> t == Str(Joined(v))
    ensures !v.Arr? && Truthy(v) ==> t == v
    ensures !v.Arr? && !Truthy(v) ==> t == Str("")
  {
    if v.Arr? then Str(Joined(v)) else Or(v, Str(""))
  }

  /** The form `load` writes from `data.part`. The object written has no
      `brand_id` or `category_id`, so both now read as undefined. */
  function LoadedForm(part: Val): PartForm
  {
    PartForm(
      Undefined, Undefined,
      Or(Field(part, "name"), Str("")),
      Or(Field(part, "description"), Str("")),
      Coalesce(Field(part, "original_price"), Str("")),
      Coalesce(Field(part, "selling_price"), Str("")),
      Coalesce(Field(part, "quantity"), Str("")),
      Coalesce(Field(part, "weight"), Str("")),
      ListText(Field(part, "images")),
      ListText(Field(part, "color_options")),
      ListText(Field(part, "compatibility")))
  }

  /** The update payload. It has no original price, weight, brand or category:
      those are never sent. A property that is `None` is undefined. */
  datatype PartUpdate = PartUpdate(
    name: Val,
    description: Option<PayloadValue>,
    sellingPrice: Option<PayloadValue>,
    quantity: Option<PayloadValue>,
    images: Option<PayloadValue>,
    colorOptions: Option<PayloadValue>,
    compatibility: Option<PayloadValue>)

  /** Building the payload throws when a list field holds a truthy value that
      is not a string (one `load` kept because it was not an array). */
  predicate PayloadThrows(f: PartForm) {
    ListFieldOf(f.images).Throws? || ListFieldOf(f.colorOptions).Throws? || ListFieldOf(f.compatibility).Throws?
  }

  function UpdatePayload(f: PartForm): (p: PartUpdate)
    requires !PayloadThrows(f)
    ensures p.name == f.name
    ensures p.description.Some? <==> Truthy(f.description)
    ensures p.description.Some? ==> p.description.value == Value(f.description)
    ensures p.sellingPrice.Some? <==> f.sellingPrice != Str("")
    ensures p.sellingPrice.Some? ==> p.sellingPrice.value == ParsedFloat(f.sellingPrice)
    ensures p.quantity.Some? <==> f.quantity != Str("")
    ensures p.quantity.Some? ==> p.quantity.value == ParsedInt(f.quantity)
    ensures p.images.Some? <==> Truthy(f.images)
    ensures p.images.Some? ==> p.images.value == Strings(ParseList(f.images.s))
    ensures p.colorOptions.Some? <==> Truthy(f.colorOptions)
    ensures p.colorOptions.Some? ==> p.colorOptions.value == Strings(ParseList(f.colorOptions.s))
    ensures p.compatibility.Some? <==> Truthy(f.compatibility)
    ensures p.compatibility.Some? ==> p.compatibility.value == Strings(ParseList(f.compatibility.s))
  {
    PartUpdate(
      f.name,
      OrUndefined(f.description),
      NumberField(f.sellingPrice, false),
      NumberField(f.quantity, true),
      Payloaded(ListFieldOf(f.images)),
      Payloaded(ListFieldOf(f.colorOptions)),
      Payloaded(ListFieldOf(f.compatibility)))
  }

  /** The backend calls the page makes. */
  datatype Call =
    | GetPart(id: string)
    | GetBrands
    | GetCategories
    | UpdatePart(id: string, payload: PartUpdate)

  datatype PageState = PageState(
    form: PartForm,
    brands: Val,
    categories: Val,
    loading: bool,
    saving: bool,
    calls: seq<Call>,
    toasts: seq<Toast>,
    navigatedTo: Option<string>)

  const InitialState: PageState := PageState(EmptyForm, Arr([]), Arr([]), true, false, [], [], None)

  /** `load`: without an id nothing happens. The three requests go out
      together. A failed part reply leaves the form as it was and ends loading;
      a reply whose `part` is null or missing makes `p.part.name` throw, so
      loading never ends; otherwise the form is filled and the lists replaced
      where their replies carry data. */
  function LoadSpec(st: PageState, id: Option<string>, partReply: Api.ApiResponse,
                    brandsReply: Api.ApiResponse, categoriesReply: Api.ApiResponse): PageState
  {
    if !HasId(id) then st
    else
      var st1 := st.(calls := st.calls + [GetPart(id.value), GetBrands, GetCategories]);
      if Api.Failed(partReply) then
        st1.(toasts := st1.toasts + [Failure(Or(ErrorOf(partReply), Str(LoadFailed)))], loading := false)
      else
        var part := Field(partReply.data, "part");
        if Nullish(part) then st1
        else
          st1.(form := LoadedForm(part),
               brands := ListAfter(brandsReply, st.brands, "brands"),
               categories := ListAfter(categoriesReply, st.categories, "categories"),
               loading := false)
  }

  /** `onSubmit`: without an id nothing happens; a list field that cannot be
      split throws after `saving` was set, so it stays set and nothing is
      sent; otherwise the update is sent and `saving` ends false either way. */
  function SubmitSpec(st: PageState, id: Option<string>, reply: Api.ApiResponse): PageState
  {
    if !HasId(id) then st
    else if PayloadThrows(st.form) then st.(saving := true)
    else
      var st1 := st.(calls := st.calls + [UpdatePart(id.value, UpdatePayload(st.form))]);
      if reply.Error? then
        st1.(toasts := st1.toasts + [Failure(Or(reply.error, Str(SaveFailed)))], saving := false)
      else
        st1.(toasts := st1.toasts + [Success(Updated)], navigatedTo := Some(ProductsRoute), saving := false)
  }

  // ---------------------------------------------------------------------------
  // Properties

  /** Loading a part whose list fields are arrays of proper items and saving
      the form unchanged sends the same items back; an empty array is left out. */
  lemma LoadSaveRoundTrip(part: Val, images: seq<string>, colors: seq<string>, compatible: seq<string>)
    requires Field(part, "images") == Arr(Strs(images))
    requires Field(part, "color_options") == Arr(Strs(colors))
    requires Field(part, "compatibility") == Arr(Strs(compatible))
    requires forall k :: 0 <= k < |images| ==> IsListItem(images[k])
    requires forall k :: 0 <= k < |colors| ==> IsListItem(colors[k])
    requires forall k :: 0 <= k < |compatible| ==> IsListItem(compatible[k])
    ensures !PayloadThrows(LoadedForm(part))
    ensures var p := UpdatePayload(LoadedForm(part));
            p.images == (if images == [] then None else Some(Strings(images)))
            && p.colorOptions == (if colors == [] then None else Some(Strings(colors)))
            && p.compatibility == (if compatible == [] then None else Some(Strings(compatible)))
  {
    ListFieldRoundTrip(images);
    ListFieldRoundTrip(colors);
    ListFieldRoundTrip(compatible);
  }

  /** A list field that arrived as a truthy non-array value is kept by `load`
      and makes the next save throw, leaving `saving` set. */
  lemma KeptScalarBlocksSave(st: PageState, id: string, reply: Api.ApiResponse, n: int)
    requires id != "" && n != 0 && st.form.images == Num(n)
    ensures ListText(Num(n)) == Num(n)
    ensures var s := SubmitSpec(st, Some(id), reply);
            s.saving && s.calls == st.calls && s.toasts == st.toasts
  {
  }

  /** A failed load leaves the form and lists untouched and ends loading. */
  lemma FailedLoadKeepsForm(st: PageState, id: string, partReply: Api.ApiResponse,
                            brandsReply: Api.ApiResponse, categoriesReply: Api.ApiResponse)
    requires id != "" && Api.Failed(partReply)
    ensures var s := LoadSpec(st, Some(id), partReply, brandsReply, categoriesReply);
            s.form == st.form && s.brands == st.brands && s.categories == st.categories && !s.loading
  {
  }

  /** A save that was sent issues exactly the update call with the payload of
      the current form, ends with `saving` false whatever the reply, and
      navigates back to the product list only on success. */
  lemma SaveSent(st: PageState, id: string, reply: Api.ApiResponse)
    requires id != "" && !PayloadThrows(st.form)
    ensures var s := SubmitSpec(st, Some(id), reply);
            !s.saving && s.calls == st.calls + [UpdatePart(id, UpdatePayload(st.form))] && s.form == st.form
            && (reply.Error? ==> s.toasts == st.toasts + [Failure(reply.error)] && s.navigatedTo == st.navigatedTo)
            && (reply.Data? ==> s.toasts == st.toasts + [Success(Updated)] && s.navigatedTo == Some(ProductsRoute))
  {
  }

  /** Without a route id neither the load nor the update is issued and
      nothing changes. */
  lemma MissingIdDoesNothing(st: PageState, id: Option<string>, r1: Api.ApiResponse, r2: Api.ApiResponse,
                             r3: Api.ApiResponse)
    requires !HasId(id)
    ensures LoadSpec(st, id, r1, r2, r3) == st && SubmitSpec(st, id, r1) == st
  {
  }

  /** A reply without a `part` makes the load throw after the requests went
      out: the form stays as it was and loading never ends. */
  lemma MissingPartKeepsLoading(st: PageState, id: string, partReply: Api.ApiResponse,
                                brandsReply: Api.ApiResponse, categoriesReply: Api.ApiResponse)
    requires id != "" && !Api.Failed(partReply) && Nullish(Field(partReply.data, "part"))
    ensures var s := LoadSpec(st, Some(id), partReply, brandsReply, categoriesReply);
            s.form == st.form && s.loading == st.loading
            && s.calls == st.calls + [GetPart(id), GetBrands, GetCategories]
  {
  }

  // ---------------------------------------------------------------------------
  // The component

  class EditPartPage {
    var form: PartForm
    var brands: Val
    var categories: Val
    var loading: bool
    var saving: bool
    var calls: seq<Call>
    var toasts: seq<Toast>
    var navigatedTo: Option<string>

    function State(): PageState
      reads this
    {
      PageState(form, brands, categories, loading, saving, calls, toasts, navigatedTo)
    }

    constructor()
      ensures State() == InitialState
    {
      form := EmptyForm;
      brands := Arr([]);
      categories := Arr([]);
      loading := true;
      saving := false;
      calls := [];
      toasts := [];
      navigatedTo := None;
    }

    /** `load`; `threw` tells that it ended in a TypeError. */
    method Load(id: Option<string>, partReply: Api.ApiResponse,
                brandsReply: Api.ApiResponse, categoriesReply: Api.ApiResponse) returns (threw: bool)
      modifies this
      ensures State() == LoadSpec(old(State()), id, partReply, brandsReply, categoriesReply)
      ensures threw <==> HasId(id) && !Api.Failed(partReply) && Nullish(Field(partReply.data, "part"))
    {
      threw := false;
      if !HasId(id) {
        return;
      }
      calls := calls + [GetPart(id.value), GetBrands, GetCategories];
      if Api.Failed(partReply) {
        toasts := toasts + [Failure(Or(ErrorOf(partReply), Str(LoadFailed)))];
        loading := false;
        return;
      }
      var part := Field(partReply.data, "part");
      if Nullish(part) {
        return true;
      }
      Fill(part, brandsReply, categoriesReply);
    }

    /** The rest of `load` once the part is known: the form is filled, each
        list reply that carries data replaces its list, and loading ends. */
    method Fill(part: Val, brandsReply: Api.ApiResponse, categoriesReply: Api.ApiResponse)
      modifies this
      ensures State() == old(State()).(form := LoadedForm(part),
                                       brands := ListAfter(brandsReply, old(brands), "brands"),
                                       categories := ListAfter(categoriesReply, old(categories), "categories"),
                                       loading := false)
    {
      form := LoadedForm(part);
      if brandsReply.Data? && Truthy(brandsReply.data) {
        brands := NormalizeList(brandsReply.data, "brands");
      }
      if categoriesReply.Data? && Truthy(categoriesReply.data) {
        categories := NormalizeList(categoriesReply.data, "categories");
      }
      loading := false;
    }

    /** `onSubmit`; `threw` tells that building the payload threw. */
    method Submit(id: Option<string>, reply: Api.ApiResponse) returns (threw: bool)
      modifies this
      ensures State() == SubmitSpec(old(State()), id, reply)
      ensures threw <==> HasId(id) && PayloadThrows(old(form))
    {
      threw := false;
      if !HasId(id) {
        return;
      }
      saving := true;
      if PayloadThrows(form) {
        return true;
      }
      calls := calls + [UpdatePart(id.value, UpdatePayload(form))];
      if reply.Error? {
        toasts := toasts + [Failure(Or(reply.error, Str(SaveFailed)))];
      } else {
        toasts := toasts + [Success(Updated)];
        navigatedTo := Some(ProductsRoute);
      }
      saving := false;
    }
  }
}
