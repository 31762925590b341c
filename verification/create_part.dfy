/** The "Create Part" page: loading the brand and category lists, the
    "create new" chain that first makes a missing brand and then a missing
    category (`ensureBrandAndCategory`), and the submission that builds the
    part payload. The backend's replies are inputs, one per call. */
module CreatePart {
  import opened JsValues
  import opened CommaList
  import opened FormKit
  import Api

  /** The select value that stands for "create a new one". */
  const NewValue: string := "new"

  datatype Entity = Brand | Category

  /** The property holding the entity in a create reply (`brand`, `category`). */
  function Key(e: Entity): string {
    match e
    case Brand => "brand"
    case Category => "category"
  }

  /** The property holding the list in a list reply (`brands`, `categories`). */
  function ListKey(e: Entity): string {
    match e
    case Brand => "brands"
    case Category => "categories"
  }

  function Title(e: Entity): string {
    match e
    case Brand => "Brand"
    case Category => "Category"
  }

  function NameRequired(e: Entity): string { Title(e) + " name is required" }
  function CreateFailed(e: Entity): string { "Failed to create " + Key(e) }
  function NoIdMessage(e: Entity): string { "Failed to get " + Key(e) + " ID from response" }
  function CreatedMessage(e: Entity): string { Title(e) + " created" }

  const SelectBoth: string := "Please select brand and category"
  const PartFailed: string := "Failed to create part"
  const PartCreated: string := "Part created successfully"
  const ProductsRoute: string := "/products"

  /** The backend calls the page makes, in order. */
  datatype Call =
    | GetAll(entity: Entity)
    | Create(entity: Entity, name: string)
    | CreatePartCall(payload: PartFields)

  /** The form. The two ids start as select values and may be replaced by the
      id a create reply carries, which need not be a string. */
  datatype Form = Form(
    brandId: Val,
    categoryId: Val,
    name: string,
    description: string,
    originalPrice: string,
    sellingPrice: string,
    quantity: string,
    weight: string,
    images: string,
    colorOptions: string,
    compatibility: string)

  const EmptyForm: Form := Form(Str(""), Str(""), "", "", "", "", "", "", "", "", "")

  /** `d.id || d[key]?.id || d.data?.id`: where a create reply keeps the new id. */
  function NewId(d: Val, e: Entity): (id: Val)
    ensures Truthy(Field(d, "id")) ==> id == Field(d, "id")
    ensures !Truthy(Field(d, "id")) && Truthy(Field(Field(d, Key(e)), "id")) ==> id == Field(Field(d, Key(e)), "id")
    ensures !Truthy(Field(d, "id")) && !Truthy(Field(Field(d, Key(e)), "id")) ==> id == Field(Field(d, "data"), "id")
    ensures Truthy(id) <==>
      Truthy(Field(d, "id")) || Truthy(Field(Field(d, Key(e)), "id")) || Truthy(Field(Field(d, "data"), "id"))
  {
    Or(Or(Field(d, "id"), Field(Field(d, Key(e)), "id")), Field(Field(d, "data"), "id"))
  }

  /** One half of `ensureBrandAndCategory`: whether it may go on, the id it
      settles on, the calls and toasts it makes, and the entity list after it. */
  datatype Step = Step(ok: bool, id: Val, calls: seq<Call>, toasts: seq<Toast>, list: Val)

  /** The step made a new entity (as opposed to passing the selection through). */
  predicate Made(s: Step) {
    s.ok && s.calls != []
  }

  function EntityStep(e: Entity, selected: Val, newName: string,
                      created: Api.ApiResponse, refreshed: Api.ApiResponse, list: Val): (s: Step)
    ensures selected != Str(NewValue) ==> s == Step(true, selected, [], [], list)
    ensures selected == Str(NewValue) ==>
      (s.ok <==> Trim(newName) != "" && !Api.Failed(created) && Truthy(NewId(created.data, e)))
    ensures selected == Str(NewValue) && Trim(newName) == "" ==>
      s.calls == [] && s.toasts == [Failure(Str(NameRequired(e)))]
    ensures selected == Str(NewValue) && Trim(newName) != "" ==> |s.calls| >= 1 && s.calls[0] == Create(e, newName)
    ensures Made(s) <==> s.ok && selected == Str(NewValue)
    ensures Made(s) ==>
      s.id == NewId(created.data, e) && Truthy(s.id)
      && s.calls == [Create(e, newName), GetAll(e)]
      && s.toasts == [Success(CreatedMessage(e))]
      && s.list == ListAfter(refreshed, list, ListKey(e))
    ensures !s.ok ==> s.list == list && |s.toasts| == 1 && s.toasts[0].Failure? && |s.calls| <= 1
    ensures selected == Str(NewValue) && Trim(newName) != "" && Api.Failed(created) ==>
      s.toasts == [Failure(Or(ErrorOf(created), Str(CreateFailed(e))))]
    ensures selected == Str(NewValue) && Trim(newName) != "" && !Api.Failed(created)
            && !Truthy(NewId(created.data, e)) ==>
      s.toasts == [Failure(Str(NoIdMessage(e)))]
  {
    if selected != Str(NewValue) then Step(true, selected, [], [], list)
    else if Trim(newName) == "" then Step(false, selected, [], [Failure(Str(NameRequired(e)))], list)
    else if Api.Failed(created) then
      Step(false, selected, [Create(e, newName)], [Failure(Or(ErrorOf(created), Str(CreateFailed(e))))], list)
    else
      var id := NewId(created.data, e);
      if !Truthy(id) then Step(false, selected, [Create(e, newName)], [Failure(Str(NoIdMessage(e)))], list)
      else Step(true, id, [Create(e, newName), GetAll(e)], [Success(CreatedMessage(e))],
                ListAfter(refreshed, list, ListKey(e)))
  }

  /** A list field of the create form: parsed when non-empty, left out when
      nothing remains. */
  function ListPayload(text: string): (r: Option<PayloadValue>)
    ensures r.Some? <==> ParseList(text) != []
    ensures r.Some? ==> r.value == Strings(ParseList(text))
  {
    ParseListItems(text);
    var items := if text != "" then ParseList(text) else [];
    if items != [] then Some(Strings(items)) else None
  }

  /** The part payload. `brand_id`, `category_id` and `name` are always sent;
      every other property is `None` when it is `undefined`. */
  datatype PartFields = PartFields(
    brandId: Val,
    categoryId: Val,
    name: string,
    description: Option<PayloadValue>,
    originalPrice: Option<PayloadValue>,
    sellingPrice: Option<PayloadValue>,
    quantity: Option<PayloadValue>,
    weight: Option<PayloadValue>,
    images: Option<PayloadValue>,
    colorOptions: Option<PayloadValue>,
    compatibility: Option<PayloadValue>)

  /** The payload built from the settled ids and the form: an empty text, an
      empty number and a list with no items are all left out. */
  function PartPayload(brandId: Val, categoryId: Val, f: Form): (p: PartFields)
    ensures p.brandId == brandId && p.categoryId == categoryId && p.name == f.name
    ensures p.description.Some? <==> f.description != ""
    ensures p.description.Some? ==> p.description.value == Value(Str(f.description))
    ensures p.originalPrice.Some? <==> f.originalPrice != ""
    ensures p.originalPrice.Some? ==> p.originalPrice.value == ParsedFloat(Str(f.originalPrice))
    ensures p.sellingPrice.Some? <==> f.sellingPrice != ""
    ensures p.sellingPrice.Some? ==> p.sellingPrice.value == ParsedFloat(Str(f.sellingPrice))
    ensures p.quantity.Some? <==> f.quantity != ""
    ensures p.quantity.Some? ==> p.quantity.value == ParsedInt(Str(f.quantity))
    ensures p.weight.Some? <==> f.weight != ""
    ensures p.weight.Some? ==> p.weight.value == ParsedFloat(Str(f.weight))
    ensures p.images.Some? <==> ParseList(f.images) != []
    ensures p.images.Some? ==> p.images.value == Strings(ParseList(f.images))
    ensures p.colorOptions.Some? <==> ParseList(f.colorOptions) != []
    ensures p.colorOptions.Some? ==> p.colorOptions.value == Strings(ParseList(f.colorOptions))
    ensures p.compatibility.Some? <==> ParseList(f.compatibility) != []
    ensures p.compatibility.Some? ==> p.compatibility.value == Strings(ParseList(f.compatibility))
  {
    PartFields(
      brandId, categoryId, f.name,
      OrUndefined(Str(f.description)),
      NumberField(Str(f.originalPrice), false),
      NumberField(Str(f.sellingPrice), false),
      NumberField(Str(f.quantity), true),
      NumberField(Str(f.weight), false),
      ListPayload(f.images),
      ListPayload(f.colorOptions),
      ListPayload(f.compatibility))
  }

  // ---------------------------------------------------------------------------
  // The page state and what each handler makes of it

  datatype PageState = PageState(
    form: Form,
    newBrandName: string,
    newCategoryName: string,
    brands: Val,
    categories: Val,
    loading: bool,
    submitting: bool,
    calls: seq<Call>,
    toasts: seq<Toast>,
    navigatedTo: Option<string>)

  const InitialState: PageState :=
    PageState(EmptyForm, "", "", Arr([]), Arr([]), true, false, [], [], None)

  /** The replies to the calls a submission may make, in the order they are made. */
  datatype Replies = Replies(
    brandCreated: Api.ApiResponse,
    brandsRefreshed: Api.ApiResponse,
    categoryCreated: Api.ApiResponse,
    categoriesRefreshed: Api.ApiResponse,
    partCreated: Api.ApiResponse)

  /** The mount-time load: both lists are requested together and each is
      replaced when its reply carries data; loading ends either way. */
  function LoadSpec(st: PageState, brandsResult: Api.ApiResponse, categoriesResult: Api.ApiResponse): (s: PageState)
    ensures s.calls == st.calls + [GetAll(Brand), GetAll(Category)]
    ensures !s.loading
    ensures s == st.(calls := s.calls, loading := false,
                     brands := ListAfter(brandsResult, st.brands, "brands"),
                     categories := ListAfter(categoriesResult, st.categories, "categories"))
  {
    st.(calls := st.calls + [GetAll(Brand), GetAll(Category)],
        brands := ListAfter(brandsResult, st.brands, "brands"),
        categories := ListAfter(categoriesResult, st.categories, "categories"),
        loading := false)
  }

  /** The state after the brand step: the log grows, and a brand that was made
      becomes the selected one and clears the name input. */
  function AfterBrand(st: PageState, s: Step): PageState {
    st.(calls := st.calls + s.calls, toasts := st.toasts + s.toasts, brands := s.list,
        form := if Made(s) then st.form.(brandId := s.id) else st.form,
        newBrandName := if Made(s) then "" else st.newBrandName)
  }

  function AfterCategory(st: PageState, s: Step): PageState {
    st.(calls := st.calls + s.calls, toasts := st.toasts + s.toasts, categories := s.list,
        form := if Made(s) then st.form.(categoryId := s.id) else st.form,
        newCategoryName := if Made(s) then "" else st.newCategoryName)
  }

  function BrandStep(st: PageState, r: Replies): Step {
    EntityStep(Brand, st.form.brandId, st.newBrandName, r.brandCreated, r.brandsRefreshed, st.brands)
  }

  function CategoryStep(st: PageState, r: Replies): Step {
    EntityStep(Category, st.form.categoryId, st.newCategoryName, r.categoryCreated, r.categoriesRefreshed,
               st.categories)
  }

  /** What `ensureBrandAndCategory` returns, and the state it leaves. */
  datatype Ensured = Ensured(ok: bool, brandId: Val, categoryId: Val, state: PageState)

  function EnsureSpec(st: PageState, r: Replies): (en: Ensured)
    ensures |st.calls| <= |en.state.calls| && en.state.calls[..|st.calls|] == st.calls
    ensures en.state.submitting == st.submitting && en.state.navigatedTo == st.navigatedTo
    ensures !BrandStep(st, r).ok ==> !en.ok && en.state == AfterBrand(st, BrandStep(st, r))
    ensures en.ok <==> BrandStep(st, r).ok && CategoryStep(AfterBrand(st, BrandStep(st, r)), r).ok
    ensures en.ok ==> en.brandId == BrandStep(st, r).id
                      && en.categoryId == CategoryStep(AfterBrand(st, BrandStep(st, r)), r).id
  {
    var b := BrandStep(st, r);
    var st1 := AfterBrand(st, b);
    if !b.ok then Ensured(false, Undefined, Undefined, st1)
    else
      var c := CategoryStep(st1, r);
      var st2 := AfterCategory(st1, c);
      if !c.ok then Ensured(false, Undefined, Undefined, st2)
      else Ensured(true, b.id, c.id, st2)
  }

  /** What `onSubmit` does once `ensureBrandAndCategory` has returned: stop
      unless both ids are truthy, else create the part from the form `f` the
      submission started with. */
  function FinishSpec(en: Ensured, f: Form, r: Replies): PageState {
    if !en.ok then en.state.(submitting := false)
    else if !Truthy(en.brandId) || !Truthy(en.categoryId) then
      en.state.(toasts := en.state.toasts + [Failure(Str(SelectBoth))], submitting := false)
    else
      var s1 := en.state.(calls := en.state.calls + [CreatePartCall(PartPayload(en.brandId, en.categoryId, f))]);
      if r.partCreated.Error? then
        s1.(toasts := s1.toasts + [Failure(Or(r.partCreated.error, Str(PartFailed)))], submitting := false)
      else
        s1.(toasts := s1.toasts + [Success(PartCreated)], navigatedTo := Some(ProductsRoute))
  }

  /** `onSubmit`. */
  function SubmitSpec(st: PageState, r: Replies): PageState {
    FinishSpec(EnsureSpec(st.(submitting := true), r), st.form, r)
  }

  // ---------------------------------------------------------------------------
  // Properties of the submission

  /** A blank name for a new brand stops everything before any call is made. */
  lemma BlankBrandNameStops(st: PageState, r: Replies)
    requires st.form.brandId == Str(NewValue) && Trim(st.newBrandName) == ""
    ensures var s := SubmitSpec(st, r);
            s.calls == st.calls && s.toasts == st.toasts + [Failure(Str(NameRequired(Brand)))]
            && !s.submitting && s.navigatedTo == st.navigatedTo
  {
  }

  /** A blank name for a new category stops everything before the category
      (or the part) is created; only the brand step's calls are made. */
  lemma BlankCategoryNameStops(st: PageState, r: Replies)
    requires BrandStep(st.(submitting := true), r).ok
    requires st.form.categoryId == Str(NewValue) && Trim(st.newCategoryName) == ""
    ensures var s := SubmitSpec(st, r);
            s.calls == st.calls + BrandStep(st.(submitting := true), r).calls
            && s.toasts[|s.toasts| - 1] == Failure(Str(NameRequired(Category)))
            && !s.submitting && s.navigatedTo == st.navigatedTo
  {
    var st0 := st.(submitting := true);
    var st1 := AfterBrand(st0, BrandStep(st0, r));
    assert st1.form.categoryId == st.form.categoryId && st1.newCategoryName == st.newCategoryName;
  }

  /** The category step runs only after the brand step succeeded: a failing
      brand step is the last thing the submission does. */
  lemma CategoryAfterBrand(st: PageState, r: Replies)
    requires !BrandStep(st.(submitting := true), r).ok
    ensures var s := SubmitSpec(st, r);
            s.calls == st.calls + BrandStep(st.(submitting := true), r).calls
            && |s.calls| <= |st.calls| + 1 && !s.submitting
  {
  }

  /** Selections other than "new" pass through unchanged and cost no call. */
  lemma SelectionsPassThrough(st: PageState, r: Replies)
    requires st.form.brandId != Str(NewValue) && st.form.categoryId != Str(NewValue)
    ensures var en := EnsureSpec(st, r);
            en.ok && en.brandId == st.form.brandId && en.categoryId == st.form.categoryId
            && en.state.calls == st.calls && en.state.toasts == st.toasts
  {
  }

  /** The part is created only with two truthy ids, and with exactly those;
      until the part call succeeds, `submitting` returns to false. */
  lemma PartCallNeedsIds(st: PageState, r: Replies)
    ensures var en := EnsureSpec(st.(submitting := true), r);
            var s := SubmitSpec(st, r);
            var made := en.ok && Truthy(en.brandId) && Truthy(en.categoryId);
            s.calls[..|en.state.calls|] == en.state.calls
            && (made ==> s.calls == en.state.calls + [CreatePartCall(PartPayload(en.brandId, en.categoryId, st.form))])
            && (!made ==> s.calls == en.state.calls)
            && (s.submitting <==> made && !r.partCreated.Error?)
            && s.navigatedTo == (if made && !r.partCreated.Error? then Some(ProductsRoute) else st.navigatedTo)
  {
  }

  /** Retrying after the category step failed does not create the brand again:
      the brand made by the first attempt is now the selected one. */
  lemma RetryKeepsMadeBrand(st: PageState, r: Replies, r2: Replies)
    requires Made(BrandStep(st.(submitting := true), r))
    requires BrandStep(st.(submitting := true), r).id != Str(NewValue)
    requires !EnsureSpec(st.(submitting := true), r).ok
    ensures var s := SubmitSpec(st, r);
            s.form.brandId == BrandStep(st.(submitting := true), r).id && s.newBrandName == ""
            && BrandStep(s.(submitting := true), r2).calls == []
  {
  }

  // ---------------------------------------------------------------------------
  // The component

  class CreatePartPage {
    var form: Form
    var newBrandName: string
    var newCategoryName: string
    var brands: Val
    var categories: Val
    var loading: bool
    var submitting: bool
    var calls: seq<Call>
    var toasts: seq<Toast>
    var navigatedTo: Option<string>

    function State(): PageState
      reads this
    {
      PageState(form, newBrandName, newCategoryName, brands, categories, loading, submitting, calls, toasts,
                navigatedTo)
    }

    constructor()
      ensures State() == InitialState
    {
      form := EmptyForm;
      newBrandName := "";
      newCategoryName := "";
      brands := Arr([]);
      categories := Arr([]);
      loading := true;
      submitting := false;
      calls := [];
      toasts := [];
      navigatedTo := None;
    }

    method Load(brandsResult: Api.ApiResponse, categoriesResult: Api.ApiResponse)
      modifies this
      ensures State() == LoadSpec(old(State()), brandsResult, categoriesResult)
    {
      calls := calls + [GetAll(Brand), GetAll(Category)];
      if brandsResult.Data? && Truthy(brandsResult.data) {
        brands := NormalizeList(brandsResult.data, "brands");
      }
      if categoriesResult.Data? && Truthy(categoriesResult.data) {
        categories := NormalizeList(categoriesResult.data, "categories");
      }
      loading := false;
    }

    /** The brand half of `ensureBrandAndCategory`. The decisions and calls
        are made in order on local variables; the state setters take effect
        together, as React applies them after the handler. */
    method EnsureBrand(r: Replies) returns (ok: bool, brandId: Val)
      modifies this
      ensures var s := BrandStep(old(State()), r);
              ok == s.ok && brandId == s.id && State() == AfterBrand(old(State()), s)
    {
      var made, newCalls, newToasts, list := false, [], [], brands;
      ok, brandId := true, form.brandId;
      if brandId == Str(NewValue) {
        if Trim(newBrandName) == "" {
          ok, newToasts := false, [Failure(Str(NameRequired(Brand)))];
        } else {
          newCalls := [Create(Brand, newBrandName)];
          if Api.Failed(r.brandCreated) {
            ok, newToasts := false, [Failure(Or(ErrorOf(r.brandCreated), Str(CreateFailed(Brand))))];
          } else {
            var newId := NewId(r.brandCreated.data, Brand);
            if !Truthy(newId) {
              ok, newToasts := false, [Failure(Str(NoIdMessage(Brand)))];
            } else {
              brandId, made := newId, true;
              newCalls := newCalls + [GetAll(Brand)];
              list := ListAfter(r.brandsRefreshed, brands, "brands");
              newToasts := [Success(CreatedMessage(Brand))];
            }
          }
        }
      }
      assert Step(ok, brandId, newCalls, newToasts, list) == BrandStep(State(), r);
      calls := calls + newCalls;
      toasts := toasts + newToasts;
      brands := list;
      if made {
        form := form.(brandId := brandId);
        newBrandName := "";
      }
    }

    /** The category half of `ensureBrandAndCategory`. The decisions and calls
        are made in order on local variables; the state setters take effect
        together, as React applies them after the handler. */
    method EnsureCategory(r: Replies) returns (ok: bool, categoryId: Val)
      modifies this
      ensures var s := CategoryStep(old(State()), r);
              ok == s.ok && categoryId == s.id && State() == AfterCategory(old(State()), s)
    {
      var made, newCalls, newToasts, list := false, [], [], categories;
      ok, categoryId := true, form.categoryId;
      if categoryId == Str(NewValue) {
        if Trim(newCategoryName) == "" {
          ok, newToasts := false, [Failure(Str(NameRequired(Category)))];
        } else {
          newCalls := [Create(Category, newCategoryName)];
          if Api.Failed(r.categoryCreated) {
            ok, newToasts := false, [Failure(Or(ErrorOf(r.categoryCreated), Str(CreateFailed(Category))))];
          } else {
            var newId := NewId(r.categoryCreated.data, Category);
            if !Truthy(newId) {
              ok, newToasts := false, [Failure(Str(NoIdMessage(Category)))];
            } else {
              categoryId, made := newId, true;
              newCalls := newCalls + [GetAll(Category)];
              list := ListAfter(r.categoriesRefreshed, categories, "categories");
              newToasts := [Success(CreatedMessage(Category))];
            }
          }
        }
      }
      assert Step(ok, categoryId, newCalls, newToasts, list) == CategoryStep(State(), r);
      calls := calls + newCalls;
      toasts := toasts + newToasts;
      categories := list;
      if made {
        form := form.(categoryId := categoryId);
        newCategoryName := "";
      }
    }

    /** `ensureBrandAndCategory`: the brand step, then (only if it succeeded)
        the category step. */
    method EnsureBrandAndCategory(r: Replies) returns (ok: bool, brandId: Val, categoryId: Val)
      modifies this
      ensures Ensured(ok, brandId, categoryId, State()) == EnsureSpec(old(State()), r)
    {
      ok, brandId := EnsureBrand(r);
      if !ok {
        return false, Undefined, Undefined;
      }
      ok, categoryId := EnsureCategory(r);
      if !ok {
        return false, Undefined, Undefined;
      }
    }

    /** `onSubmit`: the payload is built from the form as it was when the
        submission started, with the ids the chain settled on. */
    method Submit(r: Replies)
      modifies this
      ensures State() == SubmitSpec(old(State()), r)
    {
      var f := form;
      submitting := true;
      var ok, brandId, categoryId := EnsureBrandAndCategory(r);
      Finish(ok, brandId, categoryId, f, r);
    }

    /** The rest of `onSubmit`, after `ensureBrandAndCategory` returned. */
    method Finish(ok: bool, brandId: Val, categoryId: Val, f: Form, r: Replies)
      modifies this
      ensures State() == FinishSpec(Ensured(ok, brandId, categoryId, old(State())), f, r)
    {
      if !ok {
        submitting := false;
        return;
      }
      if !Truthy(brandId) || !Truthy(categoryId) {
        toasts := toasts + [Failure(Str(SelectBoth))];
        submitting := false;
        return;
      }
      calls := calls + [CreatePartCall(PartPayload(brandId, categoryId, f))];
      if r.partCreated.Error? {
        toasts := toasts + [Failure(Or(r.partCreated.error, Str(PartFailed)))];
        submitting := false;
        return;
      }
      toasts := toasts + [Success(PartCreated)];
      navigatedTo := Some(ProductsRoute);
    }
  }
}
