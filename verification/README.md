# sbr-admin console core, modelled in Dafny

This project models the core of the sbr-admin web console, a React/TypeScript
admin front end for a parts and merchandise shop. It models what the console
decides rather than how it draws. The modelled parts are:

- **The request helper and session store** (`src/lib/api.ts`):
  - `apiRequest` builds the headers and turns a backend outcome into the
    `{ data } | { error }` envelope;
  - `authApi.login`, `logout` and `isAuthenticated` read and write
    `localStorage`;
  - the `getAll` accessors build their query strings with a `forEach` loop
    over the parameters.
- **The generic `DataTable`**: the wide table and the narrow card layout,
  the empty message, the pagination bar and which clicks reach
  `onRowClick`.
- **The product forms** `CreatePart`, `EditPart` and `EditMerchandise`:
  - the comma-separated list fields, joined with `", "` on load and split,
    trimmed and filtered on save;
  - the payloads sent to the backend;
  - the two-step creation of a new brand and category before a part is
    created;
  - the state each handler leaves (loading, saving, toasts, calls,
    navigation).
- **The `Partners` page**: the multipart body `handleSubmit` appends field by
  field, and the dialog's form and logo state.
- **The `Combobox`** used to pick brands and categories.
- **The `OrderDetails` page**: its defensive reading of an order, the item
  table and its totals row.

JavaScript values are the datatype `JsValues.Val`, with JavaScript
truthiness, `||`, `??`, property access, `String(v)` and `+`. Backend
replies are inputs, since nothing is executed. Each reply is either:

- an `Api.HttpOutcome` (fetch threw, or a status and a parsed or unparsable
  body), for the helper itself; or
- an `Api.ApiResponse` envelope, for the pages. Each page accessor resolves
  to what `apiRequest` returns, and in that envelope an `error` is always
  truthy.

The page components are classes whose fields are the React state. Each
handler is a method, proved against a pure function on a `PageState` value.
The properties are lemmas about those functions. `Partners.handleSubmit`
assembles its body in a method that appends step by step, proved equal to
`Partners.PartnerEntries`.

## Model

| member | source | states |
|---|---|---|
| JsValues.Plus | src/pages/OrderDetails.tsx:37 | `+` yields a string exactly when an operand is or converts to a string, and the integer sum on two numbers |
| JsValues.IntToString | src/lib/api.ts:110 | `String(n)` of an integer is never empty |
| Api.RequestHeaders | src/lib/api.ts:20-25 | the headers hold the JSON content type, `Authorization: Bearer <token>` exactly when a non-empty token is stored, and the caller's headers, which override both |
| Api.Respond | src/lib/api.ts:27-42 | data exactly for an OK status with a JSON body; a thrown fetch or unreadable body gives "Network error occurred"; an error status gives the body's `error`, else "Request failed" |
| Api.ApiRequest | src/lib/api.ts:15-43 | the request goes to the base URL plus the endpoint with the merged headers, and resolves to `Respond(outcome)`; it writes nothing to the store |
| Api.IsAuthenticated | src/lib/api.ts:91-93 | authenticated exactly when a non-empty token is stored |
| Api.AuthorizationIffAuthenticated | src/lib/api.ts:20-23 | requests carry a bearer token exactly when the session counts as authenticated, and it is the stored token |
| Api.LoginRequest | src/lib/api.ts:61-67 | login posts to `/auth/login-admin` with only the JSON content type and no token |
| Api.Login | src/lib/api.ts:59-86 | the store and the reply after login are those of `LoginSpec` |
| Api.LoginWritesOnlyOnToken | src/lib/api.ts:71-81 | login writes both keys exactly when the reply is OK and carries a truthy token; otherwise the store is unchanged |
| Api.LoginErrorMessage | src/lib/api.ts:71-85 | a failed login reports `error`, else `message`, else "Login failed"; a thrown or unreadable reply reports the network error |
| Api.LogoutSpec | src/lib/api.ts:87-90 | logout removes the token and the user and keeps every other key |
| Api.Logout | src/lib/api.ts:87-90 | the store after logout is `LogoutSpec` of the store before |
| Api.LogoutIdempotent | src/lib/api.ts:87-93 | logging out twice equals logging out once, and leaves the session unauthenticated |
| Api.LoginThenLogout | src/lib/api.ts:76-93 | a login that stores a token with non-empty text authenticates, and a logout after it de-authenticates |
| Api.TruthyScalarTokenText | src/lib/api.ts:76-77 | a truthy string, number or boolean token is stored as non-empty text |
| Api.Stringified | src/lib/api.ts:109-111 | each parameter becomes its key and `String(value)`, in order |
| Api.BuildQuery | src/lib/api.ts:108-111 | the `forEach` loop builds exactly `QueryParams(entries)` |
| Api.ListQuery | src/lib/api.ts:103-112 | a listing's endpoint is its path plus `?`, and its query is `QueryParams(entries)` |
| Api.QueryKeepsDefined | src/lib/api.ts:109-111 | every parameter whose value is not `undefined` is in the query, as text, at its rank |
| Api.QueryKeepsOrder | src/lib/api.ts:109-111 | parameters keep the order of their entries |
| Api.QueryOnlyDefined | src/lib/api.ts:109-111 | every query parameter comes from an entry whose value is not `undefined` |
| DataTable.RowKey | src/components/DataTable.tsx:68 | a row's key is its truthy `id`, else its index |
| DataTable.TableRow | src/components/DataTable.tsx:74-84 | one cell per column: the renderer's result, else the raw field |
| DataTable.Table | src/components/DataTable.tsx:33-88 | non-array or empty data gives one row spanning all columns with the empty message; otherwise one row per record, in order |
| DataTable.CardEntries | src/components/DataTable.tsx:123-141 | one entry per kept column, its value or "-" |
| DataTable.CardView | src/components/DataTable.tsx:95-146 | the card layout shows the empty message exactly when the table does, else one card per record |
| DataTable.EmptyInBothLayouts | src/components/DataTable.tsx:30-98 | data that is not a non-empty array shows the empty message, "No data available" by default, in both layouts |
| DataTable.CardColumns | src/components/DataTable.tsx:121-130 | a card lists exactly the columns shown on mobile that are not an omitted actions entry, in column order |
| DataTable.LayoutsAgree | src/components/DataTable.tsx:81-131 | a card entry shows the table cell's value, with a falsy value written "-", at the column's rank among the kept columns |
| DataTable.MobileColumnsExact | src/components/DataTable.tsx:121-122 | the mobile columns are exactly those without `hideOnMobile`, in order |
| DataTable.CardEntriesShown | src/components/DataTable.tsx:128-131 | a card never shows a falsy value, nor an actions entry shown as "-" |
| DataTable.PagerView | src/components/DataTable.tsx:150-175 | the bar appears exactly when there is more than one page; Previous is disabled exactly on page 1, Next exactly on the last page |
| DataTable.PagerClick | src/components/DataTable.tsx:159-176 | an enabled button with a callback requests page − 1 or page + 1, and nothing otherwise |
| DataTable.PagerStaysInRange | src/components/DataTable.tsx:159-176 | from a page within range, no page outside 1..pages is ever requested |
| DataTable.PagerBoundaries | src/components/DataTable.tsx:150-175 | one page shows no bar; on page 1 of 3, Previous is disabled and Next requests page 2 |
| DataTable.InsideInteractive | src/components/DataTable.tsx:110-115 | a click is inside an interactive element exactly when some element on its path is a button, a link or has role "button" |
| DataTable.CardClick | src/components/DataTable.tsx:109-119 | a card click reaches `onRowClick` with its record exactly when there is a callback and no element on the path is interactive |
| DataTable.RowClick | src/components/DataTable.tsx:72 | a table-row click reaches `onRowClick` with its record whenever there is a callback |
| DataTable.CardButtonSuppressed | src/components/DataTable.tsx:109-119 | a click on a button in a card is suppressed; a click on the card's surface passes its record |
| Combobox.Selected | src/components/ui/combobox.tsx:51 | the selected option is the first whose value equals `value`, and there is none when no option matches |
| Combobox.TriggerText | src/components/ui/combobox.tsx:69 | the trigger shows the selected option's label, else the placeholder, else "Select option..." |
| Combobox.MenuView | src/components/ui/combobox.tsx:83-117 | "Create New" is listed exactly when `allowCustom` and `onCreateNew` are given, and checked exactly when the value is "new"; each option is checked exactly when it matches the value |
| Combobox.Toggled | src/components/ui/combobox.tsx:107 | selecting the selected option reports `""`, any other reports its value |
| Combobox.OnSelect | src/components/ui/combobox.tsx:87-109 | every selection closes the popover; "Create New" calls `onCreateNew`; an option reports its toggled value exactly when `onValueChange` is given |
| Combobox.SelectTogglesCheck | src/components/ui/combobox.tsx:107-114 | once the parent stores the reported value, the option's check mark flips |
| Combobox.SelectTwice | src/components/ui/combobox.tsx:107 | selecting the selected option clears the value, and selecting it again restores it |
| CommaList.Split | src/pages/CreatePart.tsx:143 | `split(",")` always yields at least one part |
| CommaList.TrimIsTrimmed | src/pages/CreatePart.tsx:143 | `trim()` leaves no white space at either end |
| CommaList.TrimKeepsCharacters | src/pages/CreatePart.tsx:143 | `trim()` introduces no character, in particular no comma |
| CommaList.ParseShowRoundTrip | src/pages/EditPart.tsx:62-99 | a list of non-empty, trimmed, comma-free items joined with ", " and parsed back gives the same list |
| CommaList.ParseListItems | src/pages/CreatePart.tsx:143-145 | every parsed item is non-empty, trimmed and comma-free, and an empty text parses to no items |
| CommaList.ParseShowParse | src/pages/EditPart.tsx:62-99 | saving, loading and saving again sends the same list as the first save |
| FormKit.OrUndefined | src/pages/EditPart.tsx:89 | `v \|\| undefined` is present exactly when `v` is truthy |
| FormKit.NumberField | src/pages/EditPart.tsx:90-91 | a number field is left out exactly when it is `""`, else parsed as float or int |
| FormKit.ListFieldOf | src/pages/EditPart.tsx:92-100 | a list field is left out exactly when falsy, throws exactly when truthy and not a string, else is sent as its parsed items |
| FormKit.SeparatorsOnlySendEmptyList | src/pages/EditPart.tsx:92-94 | a list field made only of commas and white space is sent as an empty list, unless it is empty, when it is left out |
| CommaList.SeparatorsParseToNothing | src/pages/CreatePart.tsx:143 | a text made only of commas and white space parses to no items |
| FormKit.JoinedStrings | src/pages/EditPart.tsx:62 | an array of strings joined on load is the list codec's text for those items |
| FormKit.ListFieldRoundTrip | src/pages/EditPart.tsx:62-100 | an array of proper items, joined on load and saved unchanged, is sent back as the same items; an empty array is left out |
| FormKit.NormalizeList | src/pages/CreatePart.tsx:47-51 | an array reply is the list; otherwise `data[key] \|\| data.data \|\| []`; the result is always truthy |
| FormKit.ListAfter | src/pages/CreatePart.tsx:47-52 | the list is replaced exactly when the reply carries truthy data |
| FormKit.NormalizeFindsArray | src/pages/CreatePart.tsx:48-50 | a reply that is an array, or wraps one under the list key or `data`, yields that array |
| CreatePart.NewId | src/pages/CreatePart.tsx:78 | the new id is `id`, else `brand.id` (or `category.id`), else `data.id`, and is truthy exactly when one of them is |
| CreatePart.EntityStep | src/pages/CreatePart.tsx:68-122 | "new" with a blank name stops with "… name is required" and no call; a failed create stops after the create call with the server's error or "Failed to create …", a missing id with "Failed to get … ID from response"; otherwise the step creates with the untrimmed name, refreshes the list, and settles on the new id; any other selection passes through with no call |
| CreatePart.ListPayload | src/pages/CreatePart.tsx:143-158 | a list field is sent exactly when it parses to at least one item |
| CreatePart.PartPayload | src/pages/CreatePart.tsx:147-159 | the payload has the settled ids and the name; every other field is left out exactly when empty, else parsed |
| CreatePart.LoadSpec | src/pages/CreatePart.tsx:41-60 | both lists are requested; each is replaced when its reply has data; loading ends |
| CreatePart.EnsureSpec | src/pages/CreatePart.tsx:64-125 | the category step runs only after the brand step succeeded; the result is ok exactly when both steps are, with their ids; the call log only grows |
| CreatePart.BlankBrandNameStops | src/pages/CreatePart.tsx:68-72 | a blank new-brand name ends the submission with that toast, no call and `submitting` false |
| CreatePart.BlankCategoryNameStops | src/pages/CreatePart.tsx:96-100 | a blank new-category name stops after the brand step's calls, with that toast and `submitting` false |
| CreatePart.CategoryAfterBrand | src/pages/CreatePart.tsx:131-135 | a failing brand step is the last thing the submission does |
| CreatePart.SelectionsPassThrough | src/pages/CreatePart.tsx:65-124 | existing selections pass through unchanged and cost no call or toast |
| CreatePart.PartCallNeedsIds | src/pages/CreatePart.tsx:131-168 | the part is created only with two truthy ids and the form as the submission began; `submitting` stays set and the page navigates only when the create succeeds |
| CreatePart.RetryKeepsMadeBrand | src/pages/CreatePart.tsx:83-85 | after a failed category step the made brand is selected and its name cleared, so a retry does not create it again |
| CreatePart.CreatePartPage.constructor | src/pages/CreatePart.tsx:18-38 | the page starts loading, with an empty form and empty lists |
| CreatePart.CreatePartPage.Load | src/pages/CreatePart.tsx:41-60 | the state after the load is `LoadSpec` of the state before |
| CreatePart.CreatePartPage.EnsureBrand | src/pages/CreatePart.tsx:68-94 | returns the brand step's outcome and id, and leaves `AfterBrand` of the state before |
| CreatePart.CreatePartPage.EnsureCategory | src/pages/CreatePart.tsx:96-122 | returns the category step's outcome and id, and leaves `AfterCategory` of the state before |
| CreatePart.CreatePartPage.EnsureBrandAndCategory | src/pages/CreatePart.tsx:64-125 | returns and leaves what `EnsureSpec` says |
| CreatePart.CreatePartPage.Finish | src/pages/CreatePart.tsx:132-168 | the state after the submission's tail is `FinishSpec` |
| CreatePart.CreatePartPage.Submit | src/pages/CreatePart.tsx:127-169 | the state after a submission is `SubmitSpec` of the state before |
| EditPart.ListText | src/pages/EditPart.tsx:62-64 | an array is shown joined with ", ", any other truthy value is kept, and a falsy one becomes "" |
| EditPart.UpdatePayload | src/pages/EditPart.tsx:87-101 | the name is always sent; description, price, quantity and list fields are left out exactly when empty or falsy, else converted |
| EditPart.LoadSaveRoundTrip | src/pages/EditPart.tsx:55-100 | a part whose list fields are arrays of proper items, loaded and saved unchanged, sends the same items back |
| EditPart.KeptScalarBlocksSave | src/pages/EditPart.tsx:62-100 | a list field loaded as a truthy non-array value is kept, so the next save throws, sends nothing and leaves `saving` set |
| EditPart.FailedLoadKeepsForm | src/pages/EditPart.tsx:49-53 | a failed load leaves the form and lists untouched and ends loading |
| EditPart.SaveSent | src/pages/EditPart.tsx:85-111 | a save sends exactly the update with the current form's payload, ends with `saving` false, and navigates only on success |
| EditPart.MissingIdDoesNothing | src/pages/EditPart.tsx:41-85 | without a route id neither load nor save makes a call or changes anything |
| EditPart.MissingPartKeepsLoading | src/pages/EditPart.tsx:54-56 | a reply without `part` throws after the requests: the form is untouched and loading never ends |
| EditPart.EditPartPage.constructor | src/pages/EditPart.tsx:19-39 | the page starts loading, with an empty form and empty lists |
| EditPart.EditPartPage.Load | src/pages/EditPart.tsx:40-79 | the state after the load is `LoadSpec`, and it throws exactly when the reply lacks `part` |
| EditPart.EditPartPage.Fill | src/pages/EditPart.tsx:55-78 | the form is filled from the part, each list with data is replaced, and loading ends |
| EditPart.EditPartPage.Submit | src/pages/EditPart.tsx:83-111 | the state after a save is `SubmitSpec`, and it throws exactly when a list field cannot be split |
| EditMerchandise.ListText | src/pages/EditMerchandise.tsx:40-42 | an array is shown joined with ", ", and anything else becomes "" |
| EditMerchandise.ListPayload | src/pages/EditMerchandise.tsx:58-66 | a list text is left out exactly when empty, else sent as its parsed items |
| EditMerchandise.UpdatePayload | src/pages/EditMerchandise.tsx:53-67 | the payload has exactly name, description, price, quantity, images, color_options and size_options; empty ones are left out |
| EditMerchandise.LoadSaveRoundTrip | src/pages/EditMerchandise.tsx:40-66 | list fields that are arrays of proper items, loaded and saved unchanged, are sent back as the same items |
| EditMerchandise.NonArrayListLeftOut | src/pages/EditMerchandise.tsx:40 | a list field that is not an array is cleared on load and left out of the next save |
| EditMerchandise.SaveSent | src/pages/EditMerchandise.tsx:51-75 | with an id a save is always sent with the current form's payload, ends with `saving` false, and navigates only on success |
| EditMerchandise.FailedLoadKeepsForm | src/pages/EditMerchandise.tsx:29-32 | a failed load leaves the form untouched, shows the error or "Failed to load merchandise", and ends loading |
| EditMerchandise.MissingIdDoesNothing | src/pages/EditMerchandise.tsx:27-51 | without a route id neither load nor save makes a call or changes anything |
| EditMerchandise.MissingMerchandiseKeepsLoading | src/pages/EditMerchandise.tsx:34-36 | a reply without `merchandise` throws: the form is untouched and loading never ends |
| EditMerchandise.EditMerchandisePage.constructor | src/pages/EditMerchandise.tsx:13-23 | the page starts loading with an empty form |
| EditMerchandise.EditMerchandisePage.Load | src/pages/EditMerchandise.tsx:26-45 | the state after the load is `LoadSpec`, and it throws exactly when the reply lacks `merchandise` |
| EditMerchandise.EditMerchandisePage.Submit | src/pages/EditMerchandise.tsx:49-76 | the state after a save is `SubmitSpec` of the state before |
| OrderDetails.Items | src/pages/OrderDetails.tsx:33 | `orderItems` is the array when it is one, else empty |
| OrderDetails.Payments | src/pages/OrderDetails.tsx:34 | `payments` is the array when it is one, else empty |
| OrderDetails.Quantity | src/pages/OrderDetails.tsx:37 | a missing or falsy quantity counts as 0 |
| OrderDetails.TotalQuantity | src/pages/OrderDetails.tsx:37 | the reduced total is never undefined or null |
| OrderDetails.TotalIsSum | src/pages/OrderDetails.tsx:37 | with numeric quantities, the total is their sum, missing and falsy ones counting 0 |
| OrderDetails.StringQuantityConcatenates | src/pages/OrderDetails.tsx:37 | a quantity that is a non-empty string turns the total into text: `0 + "2"` is "02" |
| OrderDetails.DisplayName | src/pages/OrderDetails.tsx:90 | an item shows `part_name` when its type is "part", else `merchandise_name` |
| OrderDetails.ItemRows | src/pages/OrderDetails.tsx:88-104 | one row per item, with its name, type and quantity |
| OrderDetails.ItemTable | src/pages/OrderDetails.tsx:87-117 | the "No items" row appears exactly when there are no items, the totals row exactly when there are some |
| OrderDetails.Load | src/pages/OrderDetails.tsx:16-29 | on any page state, a request is made exactly when there is an id; a failed reply shows the error or "Failed to load order", ends loading and keeps the data already held; a successful one stores its data and ends loading; without an id nothing changes |
| OrderDetails.Render | src/pages/OrderDetails.tsx:43-60 | the spinner shows exactly while loading, then "not found" exactly when there is no `order`, else the details |
| OrderDetails.MissingIdSpins | src/pages/OrderDetails.tsx:13-19 | without an id the freshly mounted page never leaves the spinner |
| OrderDetails.FailedLoadNotFound | src/pages/OrderDetails.tsx:14-25 | on the first load, an error or a reply without `order` ends on "Order not found" |
| OrderDetails.FailedRerunKeepsOrder | src/pages/OrderDetails.tsx:16-29 | a failed re-run for a new id only ends loading: the order loaded before stays on screen under the new route |
| OrderDetails.LoadedOrderDetails | src/pages/OrderDetails.tsx:33-117 | a loaded order is shown with the totals row last when it has items, and only "No items" otherwise |
| Partners.BoolText | src/pages/Partners.tsx:103 | `is_active` is written "true" or "false" |
| Partners.OptionalText | src/pages/Partners.tsx:99-102 | an optional field is appended exactly when it is not empty |
| Partners.LogoEntries | src/pages/Partners.tsx:106-111 | at most one logo part is appended |
| Partners.TextEntriesOrdered | src/pages/Partners.tsx:98-103 | the text fields are appended in the page's order, all before the logo |
| Partners.EntriesOrdered | src/pages/Partners.tsx:97-111 | the body's fields come in the page's order, each at most once |
| Partners.EntriesCarry | src/pages/Partners.tsx:97-111 | under every key the body carries what `Carried` says: the name and the flag always, the other texts when non-empty, a chosen file as `logo`, else the edited partner's `logo_url` |
| Partners.NameFirst | src/pages/Partners.tsx:98 | `name` is always the first field |
| Partners.LogoOrLogoUrl | src/pages/Partners.tsx:106-111 | `logo` and `logo_url` are never sent together |
| Partners.SubmitCall | src/pages/Partners.tsx:113-115 | the update call is used exactly when a partner is being edited, else the create call, with the built body |
| Partners.PartnersAfter | src/pages/Partners.tsx:55-68 | an error keeps the list; an array reply is the list; a reply without data empties it |
| Partners.EditForm | src/pages/Partners.tsx:144-151 | `null` columns become "", and non-empty ones are copied |
| Partners.EditedPartnerResent | src/pages/Partners.tsx:97-151 | a partner opened for editing and saved unchanged, with no new file, is sent back as its row holds it, logo URL included |
| Partners.Reset | src/pages/Partners.tsx:128-140 | the reset form is empty and active, with no partner being edited and no logo file or preview |
| Partners.PartnersPage.constructor | src/pages/Partners.tsx:32-45 | the page starts loading, with the dialog closed and an empty form |
| Partners.PartnersPage.LoadPartners | src/pages/Partners.tsx:51-70 | the list becomes `PartnersAfter`, an error shows "Failed to load partners", and loading ends |
| Partners.PartnersPage.BuildFormData | src/pages/Partners.tsx:97-111 | the appended body is exactly `PartnerEntries` of the form, the logo file and the edited partner |
| Partners.PartnersPage.ResetForm | src/pages/Partners.tsx:128-140 | the state after a reset is `Reset` of the state before |
| Partners.PartnersPage.HandleSubmit | src/pages/Partners.tsx:94-126 | on an error only the call and the error toast are added and the dialog stays as it was; on success the dialog closes, the form resets and the list reloads |
| Partners.PartnersPage.HandleEdit | src/pages/Partners.tsx:142-156 | the partner becomes the edited one, the form is `EditForm`, the preview is the logo's URL when it has one, and the dialog opens |
| Partners.PartnersPage.HandleLogoChange | src/pages/Partners.tsx:72-87 | no file changes nothing; a non-image file only adds the "… is not a valid image file" toast; an image becomes the logo file and preview |
| Partners.PartnersPage.RemoveLogo | src/pages/Partners.tsx:89-92 | only the logo file and preview are cleared |
| Partners.PartnersPage.OnOpenChange | src/pages/Partners.tsx:238-241 | the dialog follows `open`, and closing it also resets the form |

## Left out

- Network, JSON parsing and serialisation. `fetch`, `response.json()` and `JSON.stringify` are not modelled. The backend's outcome is an input. The stored user profile is written through a `stringify` parameter. Request bodies stay JSON values.
- `URLSearchParams`: a query is the ordered list of `(key, String(value))` pairs. Percent-encoding and the text form are not modelled.
- `Object.entries` key order: the parameters are given as a sequence in the order the caller's object enumerates them.
- Numbers: `Val` numbers are integers. `parseFloat` and `parseInt` are not modelled, and their results are kept as the text they were applied to. NaN, fractions and `toFixed` are left out.
- Prices and dates in `OrderDetails`: unit prices, `computedTotal`, payments' amounts and date formatting are not modelled; payments are passed through as records.
- Accessors that `src/lib/api.ts` does not define: `partsApi.getOne/update`, `merchandiseApi.getOne/update`, `partnersApi`, `ordersApi.getOne` and `getImageUrl` are not part of this model. Their replies are parameters, typed as what `apiRequest` returns. `getImageUrl` is a function parameter.
- The other accessors of `src/lib/api.ts`: the create, update and delete helpers and `dashboardApi` are plain `apiRequest` calls. Only their shared helper is modelled.
- Concurrency: the requests `Promise.all` starts together are modelled as made in order. Each handler runs to completion with the replies given, and the state setters it calls are applied together when it ends.
- A throw inside an async handler is modelled as the handler stopping: the setters before it have run, and the ones after it do not.
- `Partners.handleDelete` and the partner table's column renderers are not part of this model, since `confirm` and rendering are UI.
- The `FileReader` is asynchronous, but the logo preview is set at once to a data URL given as a parameter.
- Input handlers of all forms (typing into a field) are not modelled. They only copy text into the form.
- Rendering, CSS and breakpoints are not modelled. This includes `hideOnTablet`, which only changes CSS classes, the spinner's look, toasts as UI and navigation as UI. Toasts and navigation are recorded as state.
- `Combobox` search filtering and popover width are left out. The popover's open state is only modelled as closed after a selection.
- Rows of `DataTable` and `OrderDetails` that are `null` throw in JavaScript, and the model reads every field of them as `undefined`. Rows that are strings or arrays read their own properties in JavaScript (`length`, indices), and the model reads `undefined`. Property reads on strings and arrays elsewhere (`data?.order` on a string reply, say) are treated the same way.
- A `Partner` is typed as the page declares it, with `null` columns as `None`; `created_at` is not read by the modelled handlers.
- Behaviour described for the console elsewhere is absent from the code and is not modelled:
  - invalidating the session on a 401 or 403 reply;
  - leaving out the JSON content type for multipart bodies (the helper always sets it);
  - re-validating the token;
  - a route guard;
  - suppressing row clicks on desktop.

  The model follows the code.
- CreatePart.EnsureSpec: its own contract pins the whole state only when the brand step fails. After a successful brand step it states the outcome, the ids, that the call log only grows, and that `submitting` and navigation are untouched. The remaining fields follow from `AfterCategory`, which `CreatePart.CreatePartPage.EnsureCategory` states.
