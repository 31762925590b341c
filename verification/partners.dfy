/** The partners page (`Partners`): loading the partner list, the partner
    dialog's form and logo state, and the multipart body `handleSubmit`
    assembles field by field before it creates or updates a partner. The
    backend's replies, the logo's data URL and `getImageUrl` are inputs. */
module Partners {
  import opened JsValues
  import opened FormKit
  import Api

  const LoadFailed: string := "Failed to load partners"
  const NotAnImage: string := " is not a valid image file"
  const ImagePrefix: string := "image/"

  /** A partner row as the page reads it; `null` columns are `None`. */
  datatype Partner = Partner(
    id: string,
    name: string,
    description: Option<string>,
    aboutPage: Option<string>,
    websiteUrl: Option<string>,
    contactEmail: Option<string>,
    logoUrl: Option<string>,
    isActive: bool)

  /** The dialog's form. */
  datatype PartnerForm = PartnerForm(
    name: string,
    description: string,
    aboutPage: string,
    websiteUrl: string,
    contactEmail: string,
    isActive: bool)

  const EmptyForm: PartnerForm := PartnerForm("", "", "", "", "", true)

  /** A file chosen in the logo input. */
  datatype File = File(name: string, mimeType: string)

  /** The fields the page may append, in the order it appends them. */
  datatype FieldKey =
    | Name | Description | AboutPage | WebsiteUrl | ContactEmail | IsActive | Logo | LogoUrl

  /** The name a field goes under in the multipart body. */
  function KeyName(k: FieldKey): string {
    match k
    case Name => "name"
    case Description => "description"
    case AboutPage => "about_page"
    case WebsiteUrl => "website_url"
    case ContactEmail => "contact_email"
    case IsActive => "is_active"
    case Logo => "logo"
    case LogoUrl => "logo_url"
  }

  /** One part of a multipart body: a text value or a file. */
  datatype EntryValue = Text(text: string) | Blob(file: File)
  datatype Entry = Entry(key: FieldKey, value: EntryValue)

  /** `value || ""` on a column that may be `null`. */
  function OrEmpty(o: Option<string>): (s: string)
    ensures o.None? ==> s == ""
    ensures o.Some? ==> s == o.value
  {
    if o.Some? then o.value else ""
  }

  /** `b.toString()` */
  function BoolText(b: bool): (s: string)
    ensures s == "true" <==> b
    ensures s == "false" <==> !b
  {
    if b then "true" else "false"
  }

  /** Whether the partner being edited has a logo to keep: `editingPartner &&
      editingPartner.logo_url`. */
  predicate KeepsLogo(editing: Option<Partner>) {
    editing.Some? && editing.value.logoUrl.Some? && editing.value.logoUrl.value != ""
  }

  /** `if (text) fd.append(key, text)`: one entry, or none for an empty text. */
  function OptionalText(key: FieldKey, text: string): (r: seq<Entry>)
    ensures |r| <= 1
    ensures r == [] <==> text == ""
  {
    if text != "" then [Entry(key, Text(text))] else []
  }

  /** The logo part: a chosen file as `logo`, else the edited partner's
      `logo_url` when it has one, else nothing. */
  function LogoEntries(logoFile: Option<File>, editing: Option<Partner>): (r: seq<Entry>)
    ensures |r| <= 1
  {
    if logoFile.Some? then [Entry(Logo, Blob(logoFile.value))]
    else if KeepsLogo(editing) then [Entry(LogoUrl, Text(editing.value.logoUrl.value))]
    else []
  }

  /** The text fields of the body, in the order they are appended. */
  function TextEntries(form: PartnerForm): seq<Entry> {
    [Entry(Name, Text(form.name))]
    + OptionalText(Description, form.description)
    + OptionalText(AboutPage, form.aboutPage)
    + OptionalText(WebsiteUrl, form.websiteUrl)
    + OptionalText(ContactEmail, form.contactEmail)
    + [Entry(IsActive, Text(BoolText(form.isActive)))]
  }

  /** The body `handleSubmit` builds: the text fields, then the logo part. */
  function PartnerEntries(form: PartnerForm, logoFile: Option<File>, editing: Option<Partner>): seq<Entry> {
    TextEntries(form) + LogoEntries(logoFile, editing)
  }

  // ---------------------------------------------------------------------------
  // The order of the body

  /** Where a field stands in the order the page appends fields. */
  function Position(key: FieldKey): nat {
    match key
    case Name => 0
    case Description => 1
    case AboutPage => 2
    case WebsiteUrl => 3
    case ContactEmail => 4
    case IsActive => 5
    case Logo => 6
    case LogoUrl => 7
  }

  /** Every entry comes strictly after the ones before it in the page's field
      order; in particular no key appears twice. */
  predicate Ordered(entries: seq<Entry>) {
    forall i, j :: 0 <= i < j < |entries| ==> Position(entries[i].key) < Position(entries[j].key)
  }

  /** All entries stand before position `p`. */
  predicate Below(entries: seq<Entry>, p: nat) {
    forall k :: 0 <= k < |entries| ==> Position(entries[k].key) < p
  }

  /** Appending at most one entry under `key` to entries that all stand
      before `key` keeps them ordered. */
  lemma Extend(entries: seq<Entry>, part: seq<Entry>, key: FieldKey)
    requires Ordered(entries) && Below(entries, Position(key))
    requires |part| <= 1 && (part != [] ==> part[0].key == key)
    ensures Ordered(entries + part) && Below(entries + part, Position(key) + 1)
  {
  }

  /** The text fields come in the page's order and all before the logo. */
  lemma TextEntriesOrdered(form: PartnerForm)
    ensures Ordered(TextEntries(form)) && Below(TextEntries(form), Position(Logo))
  {
    var p1 := [Entry(Name, Text(form.name))];
    var p2 := p1 + OptionalText(Description, form.description);
    Extend(p1, OptionalText(Description, form.description), Description);
    var p3 := p2 + OptionalText(AboutPage, form.aboutPage);
    Extend(p2, OptionalText(AboutPage, form.aboutPage), AboutPage);
    var p4 := p3 + OptionalText(WebsiteUrl, form.websiteUrl);
    Extend(p3, OptionalText(WebsiteUrl, form.websiteUrl), WebsiteUrl);
    var p5 := p4 + OptionalText(ContactEmail, form.contactEmail);
    Extend(p4, OptionalText(ContactEmail, form.contactEmail), ContactEmail);
    Extend(p5, [Entry(IsActive, Text(BoolText(form.isActive)))], IsActive);
  }

  /** The body's fields come in the page's order, each at most once. */
  lemma EntriesOrdered(form: PartnerForm, logoFile: Option<File>, editing: Option<Partner>)
    ensures Ordered(PartnerEntries(form, logoFile, editing))
  {
    TextEntriesOrdered(form);
    var logo := LogoEntries(logoFile, editing);
    if logo != [] {
      Extend(TextEntries(form), logo, logo[0].key);
    } else {
      assert TextEntries(form) + logo == TextEntries(form);
    }
  }

  // ---------------------------------------------------------------------------
  // What the body carries, independently of how it is built

  /** The value of the first entry under `key`, as `FormData.get` reads it. */
  function ValueOf(entries: seq<Entry>, key: FieldKey): Option<EntryValue> {
    if entries == [] then None
    else if entries[0].key == key then Some(entries[0].value)
    else ValueOf(entries[1..], key)
  }

  lemma {:induction false} ValueOfConcat(s: seq<Entry>, t: seq<Entry>, key: FieldKey)
    ensures ValueOf(s + t, key) == if ValueOf(s, key).Some? then ValueOf(s, key) else ValueOf(t, key)
  {
    if s != [] {
      assert (s + t)[1..] == s[1..] + t;
      ValueOfConcat(s[1..], t, key);
    } else {
      assert s + t == t;
    }
  }

  /** A text field sent only when it is not empty. */
  function TextIfAny(text: string): (r: Option<EntryValue>)
    ensures r.None? <==> text == ""
    ensures r.Some? ==> r.value == Text(text)
  {
    if text != "" then Some(Text(text)) else None
  }

  /** What the body carries under each key, field by field: the name and the
      active flag always, each other text field when it is not empty, a chosen
      logo file as `logo`, and otherwise the edited partner's `logo_url` when
      it has one. */
  function Carried(form: PartnerForm, logoFile: Option<File>, editing: Option<Partner>, key: FieldKey): Option<EntryValue> {
    match key
    case Name => Some(Text(form.name))
    case Description => TextIfAny(form.description)
    case AboutPage => TextIfAny(form.aboutPage)
    case WebsiteUrl => TextIfAny(form.websiteUrl)
    case ContactEmail => TextIfAny(form.contactEmail)
    case IsActive => Some(Text(BoolText(form.isActive)))
    case Logo => if logoFile.Some? then Some(Blob(logoFile.value)) else None
    case LogoUrl => if logoFile.None? && KeepsLogo(editing) then Some(Text(editing.value.logoUrl.value)) else None
  }

  /** The body carries, under every key, exactly what `Carried` says. */
  lemma EntriesCarry(form: PartnerForm, logoFile: Option<File>, editing: Option<Partner>, key: FieldKey)
    ensures ValueOf(PartnerEntries(form, logoFile, editing), key) == Carried(form, logoFile, editing, key)
  {
    var p1 := [Entry(Name, Text(form.name))];
    var p2 := p1 + OptionalText(Description, form.description);
    ValueOfConcat(p1, OptionalText(Description, form.description), key);
    var p3 := p2 + OptionalText(AboutPage, form.aboutPage);
    ValueOfConcat(p2, OptionalText(AboutPage, form.aboutPage), key);
    var p4 := p3 + OptionalText(WebsiteUrl, form.websiteUrl);
    ValueOfConcat(p3, OptionalText(WebsiteUrl, form.websiteUrl), key);
    var p5 := p4 + OptionalText(ContactEmail, form.contactEmail);
    ValueOfConcat(p4, OptionalText(ContactEmail, form.contactEmail), key);
    ValueOfConcat(p5, [Entry(IsActive, Text(BoolText(form.isActive)))], key);
    ValueOfConcat(TextEntries(form), LogoEntries(logoFile, editing), key);
  }

  /** `name` always heads the body. */
  lemma NameFirst(form: PartnerForm, logoFile: Option<File>, editing: Option<Partner>)
    ensures var entries := PartnerEntries(form, logoFile, editing);
            |entries| >= 2 && entries[0] == Entry(Name, Text(form.name))
  {
  }

  /** A logo file and a kept logo URL are never sent together. */
  lemma LogoOrLogoUrl(form: PartnerForm, logoFile: Option<File>, editing: Option<Partner>)
    ensures var entries := PartnerEntries(form, logoFile, editing);
            !(ValueOf(entries, Logo).Some? && ValueOf(entries, LogoUrl).Some?)
  {
    EntriesCarry(form, logoFile, editing, Logo);
    EntriesCarry(form, logoFile, editing, LogoUrl);
  }

  // ---------------------------------------------------------------------------
  // The component

  /** The backend calls the page makes. */
  datatype Call =
    | GetPartners
    | CreatePartner(body: seq<Entry>)
    | UpdatePartner(id: string, body: seq<Entry>)

  /** `editingPartner ? update(editingPartner.id, body) : create(body)` */
  function SubmitCall(editing: Option<Partner>, body: seq<Entry>): (c: Call)
    ensures c.UpdatePartner? <==> editing.Some?
    ensures c.CreatePartner? <==> editing.None?
    ensures !c.GetPartners? && c.body == body
    ensures c.UpdatePartner? ==> c.id == editing.value.id
  {
    if editing.Some? then UpdatePartner(editing.value.id, body) else CreatePartner(body)
  }

  /** The success toast of a save. */
  function SavedMessage(editing: bool): string {
    "Partner " + (if editing then "updated" else "created") + " successfully"
  }

  /** The list after `loadPartners`: kept on an error, otherwise the reply's
      array (or its `partners` or `data`), and empty for a reply without data. */
  function PartnersAfter(reply: Api.ApiResponse, list: Val): (r: Val)
    ensures reply.Error? ==> r == list
    ensures reply.Data? && reply.data.Arr? ==> r == reply.data
    ensures reply.Data? && !Truthy(reply.data) ==> r == Arr([])
    ensures reply.Data? ==> Truthy(r)
  {
    if reply.Error? then list
    else if Truthy(reply.data) then NormalizeList(reply.data, "partners")
    else Arr([])
  }

  /** The form `handleEdit` fills from a partner: `null` columns become `""`. */
  function EditForm(partner: Partner): (f: PartnerForm)
    ensures f.name == partner.name && f.isActive == partner.isActive
    ensures f.description == "" <==> partner.description.None? || partner.description == Some("")
    ensures f.description != "" ==> partner.description == Some(f.description)
    ensures f.aboutPage == "" <==> partner.aboutPage.None? || partner.aboutPage == Some("")
    ensures f.aboutPage != "" ==> partner.aboutPage == Some(f.aboutPage)
    ensures f.websiteUrl == "" <==> partner.websiteUrl.None? || partner.websiteUrl == Some("")
    ensures f.websiteUrl != "" ==> partner.websiteUrl == Some(f.websiteUrl)
    ensures f.contactEmail == "" <==> partner.contactEmail.None? || partner.contactEmail == Some("")
    ensures f.contactEmail != "" ==> partner.contactEmail == Some(f.contactEmail)
  {
    PartnerForm(partner.name, OrEmpty(partner.description), OrEmpty(partner.aboutPage),
                OrEmpty(partner.websiteUrl), OrEmpty(partner.contactEmail), partner.isActive)
  }

  /** What a partner row holds under each field, empty and `null` columns
      counting as absent. */
  function Stored(partner: Partner, key: FieldKey): Option<EntryValue> {
    match key
    case Name => Some(Text(partner.name))
    case Description => TextIfAny(OrEmpty(partner.description))
    case AboutPage => TextIfAny(OrEmpty(partner.aboutPage))
    case WebsiteUrl => TextIfAny(OrEmpty(partner.websiteUrl))
    case ContactEmail => TextIfAny(OrEmpty(partner.contactEmail))
    case IsActive => Some(Text(BoolText(partner.isActive)))
    case Logo => None
    case LogoUrl => TextIfAny(OrEmpty(partner.logoUrl))
  }

  /** Opening a partner for editing and saving it unchanged, without choosing
      a new logo file, sends back exactly what the row holds, its logo URL
      included. */
  lemma EditedPartnerResent(partner: Partner, key: FieldKey)
    ensures ValueOf(PartnerEntries(EditForm(partner), None, Some(partner)), key) == Stored(partner, key)
  {
    EntriesCarry(EditForm(partner), None, Some(partner), key);
  }

  /** A file is accepted as a logo when its MIME type starts with "image/". */
  predicate IsImage(file: File) {
    ImagePrefix <= file.mimeType
  }

  datatype PageState = PageState(
    partners: Val,
    loading: bool,
    isDialogOpen: bool,
    editingPartner: Option<Partner>,
    formData: PartnerForm,
    logoFile: Option<File>,
    logoPreview: Option<string>,
    calls: seq<Call>,
    toasts: seq<Toast>)

  /** The dialog state `resetForm` restores. */
  function Reset(st: PageState): (r: PageState)
    ensures r.editingPartner.None? && r.formData == EmptyForm && r.logoFile.None? && r.logoPreview.None?
    ensures r.partners == st.partners && r.loading == st.loading && r.isDialogOpen == st.isDialogOpen
    ensures r.calls == st.calls && r.toasts == st.toasts
  {
    st.(editingPartner := None, formData := EmptyForm, logoFile := None, logoPreview := None)
  }

  class PartnersPage {
    var partners: Val
    var loading: bool
    var isDialogOpen: bool
    var editingPartner: Option<Partner>
    var formData: PartnerForm
    var logoFile: Option<File>
    var logoPreview: Option<string>
    var calls: seq<Call>
    var toasts: seq<Toast>

    function State(): PageState
      reads this
    {
      PageState(partners, loading, isDialogOpen, editingPartner, formData, logoFile, logoPreview, calls, toasts)
    }

    constructor()
      ensures State() == PageState(Arr([]), true, false, None, EmptyForm, None, None, [], [])
    {
      partners := Arr([]);
      loading := true;
      isDialogOpen := false;
      editingPartner := None;
      formData := EmptyForm;
      logoFile := None;
      logoPreview := None;
      calls := [];
      toasts := [];
    }

    /** `loadPartners`, with the reply `partnersApi.getAll()` resolves to. */
    method LoadPartners(reply: Api.ApiResponse)
      modifies this
      ensures State() == old(State()).(
                partners := PartnersAfter(reply, old(partners)),
                loading := false,
                calls := old(calls) + [GetPartners],
                toasts := old(toasts) + (if reply.Error? then [Failure(Str(LoadFailed))] else []))
    {
      loading := true;
      calls := calls + [GetPartners];
      if reply.Error? {
        toasts := toasts + [Failure(Str(LoadFailed))];
        loading := false;
        return;
      }
      if Truthy(reply.data) {
        partners := NormalizeList(reply.data, "partners");
      } else {
        partners := Arr([]);
      }
      loading := false;
    }

    /** The multipart body of `handleSubmit`, appended field by field. */
    method BuildFormData() returns (body: seq<Entry>)
      ensures body == PartnerEntries(formData, logoFile, editingPartner)
    {
      body := [Entry(Name, Text(formData.name))];
      ghost var before := body;
      if formData.description != "" {
        body := body + [Entry(Description, Text(formData.description))];
      }
      assert body == before + OptionalText(Description, formData.description);
      before := body;
      if formData.aboutPage != "" {
        body := body + [Entry(AboutPage, Text(formData.aboutPage))];
      }
      assert body == before + OptionalText(AboutPage, formData.aboutPage);
      before := body;
      if formData.websiteUrl != "" {
        body := body + [Entry(WebsiteUrl, Text(formData.websiteUrl))];
      }
      assert body == before + OptionalText(WebsiteUrl, formData.websiteUrl);
      before := body;
      if formData.contactEmail != "" {
        body := body + [Entry(ContactEmail, Text(formData.contactEmail))];
      }
      assert body == before + OptionalText(ContactEmail, formData.contactEmail);
      body := body + [Entry(IsActive, Text(BoolText(formData.isActive)))];
      assert body == TextEntries(formData);
      if logoFile.Some? {
        body := body + [Entry(Logo, Blob(logoFile.value))];
      } else if editingPartner.Some? && editingPartner.value.logoUrl.Some?
                && editingPartner.value.logoUrl.value != "" && logoFile.None? {
        body := body + [Entry(LogoUrl, Text(editingPartner.value.logoUrl.value))];
      }
    }

    /** `resetForm` */
    method ResetForm()
      modifies this
      ensures State() == Reset(old(State()))
    {
      editingPartner := None;
      formData := EmptyForm;
      logoFile := None;
      logoPreview := None;
    }

    /** `handleSubmit`, with the reply to the create or update call and the
        reply to the list reload that follows a success. On an error the
        dialog stays as it was; on success it closes, the form is reset and
        the list reloaded. */
    method HandleSubmit(reply: Api.ApiResponse, listReply: Api.ApiResponse)
      modifies this
      ensures var call := SubmitCall(old(editingPartner), PartnerEntries(old(formData), old(logoFile), old(editingPartner)));
              if reply.Error? then
                State() == old(State()).(calls := old(calls) + [call], toasts := old(toasts) + [Failure(reply.error)])
              else
                State() == Reset(old(State())).(
                  isDialogOpen := false,
                  partners := PartnersAfter(listReply, old(partners)),
                  loading := false,
                  calls := old(calls) + [call, GetPartners],
                  toasts := old(toasts) + [Success(SavedMessage(old(editingPartner).Some?))]
                            + (if listReply.Error? then [Failure(Str(LoadFailed))] else []))
    {
      var body := BuildFormData();
      calls := calls + [SubmitCall(editingPartner, body)];
      if reply.Error? {
        toasts := toasts + [Failure(reply.error)];
        return;
      }
      toasts := toasts + [Success(SavedMessage(editingPartner.Some?))];
      isDialogOpen := false;
      ResetForm();
      LoadPartners(listReply);
    }

    /** `handleEdit`; `imageUrl` stands for `getImageUrl`. A partner without a
        logo leaves the preview as it was. */
    method HandleEdit(partner: Partner, imageUrl: string -> string)
      modifies this
      ensures State() == old(State()).(
                editingPartner := Some(partner),
                formData := EditForm(partner),
                logoPreview := if OrEmpty(partner.logoUrl) != "" then Some(imageUrl(partner.logoUrl.value)) else old(logoPreview),
                isDialogOpen := true)
    {
      editingPartner := Some(partner);
      formData := EditForm(partner);
      if partner.logoUrl.Some? && partner.logoUrl.value != "" {
        logoPreview := Some(imageUrl(partner.logoUrl.value));
      }
      isDialogOpen := true;
    }

    /** `handleLogoChange`, with the first chosen file (if any) and the data
        URL the file reader produces for it. A file that is not an image is
        refused with a toast and changes nothing else. */
    method HandleLogoChange(file: Option<File>, dataUrl: string)
      modifies this
      ensures file.None? ==> State() == old(State())
      ensures file.Some? && !IsImage(file.value) ==>
                State() == old(State()).(toasts := old(toasts) + [Failure(Str(file.value.name + NotAnImage))])
      ensures file.Some? && IsImage(file.value) ==>
                State() == old(State()).(logoFile := file, logoPreview := Some(dataUrl))
    {
      if file.None? {
        return;
      }
      if !(ImagePrefix <= file.value.mimeType) {
        toasts := toasts + [Failure(Str(file.value.name + NotAnImage))];
        return;
      }
      logoFile := file;
      logoPreview := Some(dataUrl);
    }

    /** `removeLogo` */
    method RemoveLogo()
      modifies this
      ensures State() == old(State()).(logoFile := None, logoPreview := None)
    {
      logoFile := None;
      logoPreview := None;
    }

    /** The dialog's `onOpenChange`: closing it resets the form. */
    method OnOpenChange(open: bool)
      modifies this
      ensures open ==> State() == old(State()).(isDialogOpen := true)
      ensures !open ==> State() == Reset(old(State())).(isDialogOpen := false)
    {
      isDialogOpen := open;
      if !open {
        ResetForm();
      }
    }
  }
}
