/** What the product forms share: the toasts they raise, the JSON payload
    values they build, the conversion of an optional field, of a number field
    and of a comma-separated list field, the joining of a loaded array for
    display, and the reading of a list endpoint's reply. */
module FormKit {
  import opened JsValues
  import opened CommaList
  import Api

  /** A toast: a success text, or an error whose text may be the server's. */
  datatype Toast = Success(text: string) | Failure(message: Val)

  /** A value placed in a JSON payload. `parseFloat` and `parseInt` are not
      modelled: their results are kept as the value they were applied to. A
      payload property that is `undefined` is left out by `JSON.stringify`;
      payload records hold such a property as `None`. */
  datatype PayloadValue =
    | Value(v: Val)
    | ParsedFloat(raw: Val)
    | ParsedInt(raw: Val)
    | Strings(items: seq<string>)

  /** `v || undefined` */
  function OrUndefined(v: Val): (r: Option<PayloadValue>)
    ensures r.Some? <==> Truthy(v)
    ensures r.Some? ==> r.value == Value(v)
  {
    if Truthy(v) then Some(Value(v)) else None
  }

  /** `v !== "" ? parseFloat(v) : undefined` (or `parseInt` when `integer`). */
  function NumberField(v: Val, integer: bool): (r: Option<PayloadValue>)
    ensures r.None? <==> v == Str("")
    ensures r.Some? ==> r.value == (if integer then ParsedInt(v) else ParsedFloat(v))
  {
    if v == Str("") then None
    else if integer then Some(ParsedInt(v))
    else Some(ParsedFloat(v))
  }

  /** What a list field of an edit form turns into:
      `v ? v.split(",").map(s => s.trim()).filter(Boolean) : undefined`.
      A truthy value that is not a string has no `split`, so the call throws. */
  datatype Converted = Omitted | Sent(value: PayloadValue) | Throws

  function ListFieldOf(v: Val): (r: Converted)
    ensures r.Omitted? <==> !Truthy(v)
    ensures r.Throws? <==> Truthy(v) && !v.Str?
    ensures r.Sent? ==> v.Str? && r.value == Strings(ParseList(v.s))
  {
    if !Truthy(v) then Omitted
    else if v.Str? then Sent(Strings(ParseList(v.s)))
    else Throws
  }

  /** The payload property a list field that did not throw becomes. */
  function Payloaded(c: Converted): (r: Option<PayloadValue>)
    requires !c.Throws?
    ensures r.Some? <==> c.Sent?
    ensures r.Some? ==> r.value == c.value
  {
    if c.Sent? then Some(c.value) else None
  }

  /** A list field holding only commas and white space is not left out
      unless it is empty: it is sent as an empty list. */
  lemma SeparatorsOnlySendEmptyList(text: string)
    requires OnlySeparators(text)
    ensures ListFieldOf(Str(text)) == if text == "" then Omitted else Sent(Strings([]))
  {
    SeparatorsParseToNothing(text);
  }

  /** Whether the route supplied an id: `if (!id) return;` */
  predicate HasId(id: Option<string>) {
    id.Some? && id.value != ""
  }

  /** The string values of a list of texts. */
  function Strs(items: seq<string>): (vs: seq<Val>)
    ensures |vs| == |items|
    ensures forall k :: 0 <= k < |items| ==> vs[k] == Str(items[k])
  {
    if items == [] then [] else [Str(items[0])] + Strs(items[1..])
  }

  /** `v.join(", ")` on a loaded array. */
  function Joined(v: Val): string
    requires v.Arr?
  {
    JoinElements(v, v.elems, ", ")
  }

  /** Joining elements that are the strings `texts` gives what the list codec
      gives for `texts`. */
  lemma {:induction false} JoinedTexts(whole: Val, es: seq<Val>, texts: seq<string>)
    requires whole.Arr? && es <= whole.elems && |es| == |texts|
    requires forall k :: 0 <= k < |es| ==> es[k] == Str(texts[k])
    ensures JoinElements(whole, es, ", ") == Join(texts, ", ")
    decreases |es|
  {
    if |es| == 1 {
    } else if |es| > 1 {
      var n := |es| - 1;
      JoinedTexts(whole, es[..n], texts[..n]);
      JoinElementsLast(whole, es, ", ", texts[n]);
      assert texts == texts[..n] + [texts[n]];
      JoinSnoc(texts[..n], texts[n], ", ");
    }
  }

  /** Joining at least two elements whose last one is a string appends the
      separator and that string. */
  lemma JoinElementsLast(whole: Val, es: seq<Val>, sep: string, x: string)
    requires whole.Arr? && es <= whole.elems && |es| >= 2 && es[|es| - 1] == Str(x)
    ensures JoinElements(whole, es, sep) == JoinElements(whole, es[..|es| - 1], sep) + sep + x
  {
  }

  /** An array of strings is shown exactly as the list codec shows the texts. */
  lemma JoinedStrings(items: seq<string>)
    ensures Joined(Arr(Strs(items))) == ShowList(items)
  {
    JoinedTexts(Arr(Strs(items)), Strs(items), items);
  }

  /** Round trip of an edit form's list field: an array of proper items, joined
      on load and submitted unchanged, is sent back as the same items, except
      that an empty array (joined to `""`) is left out of the payload. */
  lemma ListFieldRoundTrip(items: seq<string>)
    requires forall k :: 0 <= k < |items| ==> IsListItem(items[k])
    ensures ListFieldOf(Str(Joined(Arr(Strs(items))))) == if items == [] then Omitted else Sent(Strings(items))
  {
    JoinedStrings(items);
    ShownListField(items);
  }

  /** A list field holding the list codec's text for proper items. */
  lemma ShownListField(items: seq<string>)
    requires forall k :: 0 <= k < |items| ==> IsListItem(items[k])
    ensures ListFieldOf(Str(ShowList(items))) == if items == [] then Omitted else Sent(Strings(items))
  {
    ShownNonEmpty(items);
    if items != [] {
      ParseShowRoundTrip(items);
    }
  }

  /** A non-empty list of proper items is shown as a non-empty text. */
  lemma ShownNonEmpty(items: seq<string>)
    requires forall k :: 0 <= k < |items| ==> IsListItem(items[k])
    ensures ShowList(items) == "" <==> items == []
  {
    if items != [] {
      JoinStartsWithFirst(items, ", ");
      assert items[0] != "";
    }
  }

  lemma JoinStartsWithFirst(items: seq<string>, sep: string)
    requires items != []
    ensures items[0] <= Join(items, sep)
  {
    if |items| > 1 {
      assert Join(items, sep) == items[0] + (sep + Join(items[1..], sep));
    }
  }

  /** The `error` of a reply, undefined when it carries data. */
  function ErrorOf(r: Api.ApiResponse): Val {
    if r.Error? then r.error else Undefined
  }

  /** A list endpoint's data: an array as is, else `data[key] || data.data || []`. */
  function NormalizeList(d: Val, key: string): (r: Val)
    ensures d.Arr? ==> r == d
    ensures !d.Arr? ==> r == Or(Field(d, key), Or(Field(d, "data"), Arr([])))
    ensures Truthy(r)
  {
    if d.Arr? then d else Or(Or(Field(d, key), Field(d, "data")), Arr([]))
  }

  /** `if (result.data) setList(normalised)`: the list after a reply arrives. */
  function ListAfter(reply: Api.ApiResponse, list: Val, key: string): (r: Val)
    ensures reply.Data? && Truthy(reply.data) ==> r == NormalizeList(reply.data, key)
    ensures !(reply.Data? && Truthy(reply.data)) ==> r == list
  {
    if reply.Data? && Truthy(reply.data) then NormalizeList(reply.data, key) else list
  }

  /** A list reply that is an array, or wraps one under `key` or `data`, yields
      that array. */
  lemma NormalizeFindsArray(d: Val, key: string, a: seq<Val>)
    requires d == Arr(a) || (d.Obj? && Field(d, key) == Arr(a))
             || (d.Obj? && !Truthy(Field(d, key)) && Field(d, "data") == Arr(a))
    ensures NormalizeList(d, key) == Arr(a)
  {
  }
}
