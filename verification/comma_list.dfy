/** The comma-separated list fields of the product forms. Loading a product
    writes an array field as `items.join(", ")`; saving reads it back as
    `text.split(",").map(s => s.trim()).filter(Boolean)`. */
module CommaList {

  /** The characters `String.prototype.trim` removes: ECMAScript WhiteSpace
      (tab, vertical tab, form feed, space, no-break space, byte order mark and
      the Unicode space separators) and LineTerminator. */
  predicate IsSpace(c: char) {
    || c == '\t' || c == '\n' || c == '\U{000B}' || c == '\U{000C}' || c == '\r'
    || c == ' ' || c == '\U{00A0}' || c == '\U{1680}'
    || ('\U{2000}' <= c <= '\U{200A}')
    || c == '\U{2028}' || c == '\U{2029}' || c == '\U{202F}' || c == '\U{205F}'
    || c == '\U{3000}' || c == '\U{FEFF}'
  }

  /** `s.trimStart()` */
  function TrimStart(s: string): string {
    if s != [] && IsSpace(s[0]) then TrimStart(s[1..]) else s
  }

  /** `s.trimEnd()` */
  function TrimEnd(s: string): string {
    if s != [] && IsSpace(s[|s| - 1]) then TrimEnd(s[..|s| - 1]) else s
  }

  /** `trimStart()` removes a prefix of white space and stops at the first
      other character. */
  lemma {:induction false} TrimStartSuffix(s: string)
    ensures |TrimStart(s)| <= |s| && TrimStart(s) == s[|s| - |TrimStart(s)|..]
    ensures TrimStart(s) == [] || !IsSpace(TrimStart(s)[0])
  {
    if s != [] && IsSpace(s[0]) {
      TrimStartSuffix(s[1..]);
    }
  }

  /** `trimEnd()` removes a suffix of white space and stops at the last
      other character. */
  lemma {:induction false} TrimEndPrefix(s: string)
    ensures TrimEnd(s) <= s
    ensures TrimEnd(s) == [] || !IsSpace(TrimEnd(s)[|TrimEnd(s)| - 1])
  {
    if s != [] && IsSpace(s[|s| - 1]) {
      TrimEndPrefix(s[..|s| - 1]);
    }
  }

  /** `s.trim()` */
  function Trim(s: string): string {
    TrimEnd(TrimStart(s))
  }

  /** Neither end of `s` is white space. */
  predicate IsTrimmed(s: string) {
    s == [] || (!IsSpace(s[0]) && !IsSpace(s[|s| - 1]))
  }

  /** `s.split(",")`: always at least one part; `""` gives `[""]`. */
  function Split(s: string): (parts: seq<string>)
    ensures |parts| >= 1
  {
    if s == [] then [""]
    else
      var rest := Split(s[1..]);
      if s[0] == ',' then [""] + rest else [[s[0]] + rest[0]] + rest[1..]
  }

  /** `items.join(sep)` */
  function Join(items: seq<string>, sep: string): string {
    if items == [] then ""
    else if |items| == 1 then items[0]
    else items[0] + sep + Join(items[1..], sep)
  }

  function TrimAll(parts: seq<string>): (r: seq<string>)
    ensures |r| == |parts|
  {
    if parts == [] then [] else [Trim(parts[0])] + TrimAll(parts[1..])
  }

  /** `.filter(Boolean)` on strings: drop the empty ones. */
  function NonEmpty(parts: seq<string>): seq<string> {
    if parts == [] then []
    else (if parts[0] == "" then [] else [parts[0]]) + NonEmpty(parts[1..])
  }

  /** `text.split(",").map(s => s.trim()).filter(Boolean)` */
  function ParseList(text: string): seq<string> {
    NonEmpty(TrimAll(Split(text)))
  }

  /** The text a loaded array field is shown as. */
  function ShowList(items: seq<string>): string {
    Join(items, ", ")
  }

  /** The items a list field can hold so that it survives a load and a save
      unchanged: non-empty, without surrounding white space, without commas. */
  predicate IsListItem(x: string) {
    x != "" && IsTrimmed(x) && ',' !in x
  }

  // ---------------------------------------------------------------------------
  // What trimming does

  lemma {:induction false} TrimStartOfTrimmed(s: string)
    requires s == [] || !IsSpace(s[0])
    ensures TrimStart(s) == s
  {
  }

  lemma {:induction false} TrimEndOfTrimmed(s: string)
    requires s == [] || !IsSpace(s[|s| - 1])
    ensures TrimEnd(s) == s
  {
  }

  /** Trimming leaves a string without white space at either end. */
  lemma TrimIsTrimmed(s: string)
    ensures IsTrimmed(Trim(s))
  {
    var t := TrimStart(s);
    var r := TrimEnd(t);
    TrimStartSuffix(s);
    TrimEndPrefix(t);
    if r != [] {
      assert r <= t;
      assert r[0] == t[0];
    }
  }

  /** Trimming only removes characters: nothing new, in particular no comma, appears. */
  lemma TrimKeepsCharacters(s: string, c: char)
    requires c !in s
    ensures c !in Trim(s)
  {
    var t := TrimStart(s);
    TrimStartSuffix(s);
    assert forall k | 0 <= k < |t| :: t[k] == s[|s| - |t| + k];
    var r := TrimEnd(t);
    TrimEndPrefix(t);
    assert forall k | 0 <= k < |r| :: r[k] == t[k];
  }

  /** A trimmed string is left alone by `trim()`. */
  lemma TrimOfTrimmed(s: string)
    requires IsTrimmed(s)
    ensures Trim(s) == s
  {
    TrimStartOfTrimmed(s);
    TrimEndOfTrimmed(s);
  }

  /** The space `join(", ")` puts before an item disappears on `trim()`. */
  lemma TrimSpacePrefix(x: string)
    requires IsTrimmed(x)
    ensures Trim(" " + x) == x
  {
    assert (" " + x)[1..] == x;
    TrimStartOfTrimmed(x);
    assert TrimStart(" " + x) == x;
    TrimEndOfTrimmed(x);
  }

  // ---------------------------------------------------------------------------
  // What splitting does

  /** No part of a split holds a comma. */
  lemma {:induction false} SplitPartsCommaFree(s: string)
    ensures forall i :: 0 <= i < |Split(s)| ==> ',' !in Split(s)[i]
  {
    if s != [] {
      SplitPartsCommaFree(s[1..]);
    }
  }

  /** A string without commas splits into itself. */
  lemma {:induction false} SplitCommaFree(a: string)
    requires ',' !in a
    ensures Split(a) == [a]
  {
    if a != [] {
      SplitCommaFree(a[1..]);
      assert [a[0]] + a[1..] == a;
    }
  }

  /** A comma-free head followed by a comma is split off as the first part. */
  lemma {:induction false} SplitAtComma(a: string, b: string)
    requires ',' !in a
    ensures Split(a + "," + b) == [a] + Split(b)
  {
    if a == [] {
      assert a + "," + b == [','] + b;
      assert ([','] + b)[1..] == b;
    } else {
      var s := a + "," + b;
      assert s[0] == a[0] && s[1..] == a[1..] + "," + b;
      SplitAtComma(a[1..], b);
      assert [a[0]] + a[1..] == a;
    }
  }

  /** Each item after the first of a joined list comes back from split with the
      leading space of the separator. */
  function Spaced(items: seq<string>): (r: seq<string>)
    ensures |r| == |items|
  {
    if items == [] then [] else [" " + items[0]] + Spaced(items[1..])
  }

  lemma {:induction false} SplitJoin(p: string, items: seq<string>)
    requires items != []
    requires ',' !in p
    requires forall i :: 0 <= i < |items| ==> ',' !in items[i]
    ensures Split(p + Join(items, ", ")) == [p + items[0]] + Spaced(items[1..])
    decreases |items|
  {
    if |items| == 1 {
      assert ',' !in items[0];
      assert ',' !in p + items[0];
      SplitCommaFree(p + items[0]);
    } else {
      var head := p + items[0];
      var tail := items[1..];
      assert ',' !in items[0];
      assert ',' !in head;
      calc {
        p + Join(items, ", ");
        p + (items[0] + ", " + Join(tail, ", "));
        head + "," + (" " + Join(tail, ", "));
      }
      SplitAtComma(head, " " + Join(tail, ", "));
      SplitJoin(" ", tail);
      assert tail[1..] == items[2..];
    }
  }

  lemma {:induction false} TrimAllSpaced(items: seq<string>)
    requires forall i :: 0 <= i < |items| ==> IsTrimmed(items[i])
    ensures TrimAll(Spaced(items)) == items
  {
    if items != [] {
      TrimSpacePrefix(items[0]);
      TrimAllSpaced(items[1..]);
    }
  }

  lemma {:induction false} NonEmptyOfNonEmpty(items: seq<string>)
    requires forall i :: 0 <= i < |items| ==> items[i] != ""
    ensures NonEmpty(items) == items
  {
    if items != [] {
      NonEmptyOfNonEmpty(items[1..]);
    }
  }

  /** Joining one more item appends the separator and the item. */
  lemma {:induction false} JoinSnoc(items: seq<string>, x: string, sep: string)
    requires items != []
    ensures Join(items + [x], sep) == Join(items, sep) + sep + x
    decreases |items|
  {
    if |items| == 1 {
      assert (items + [x])[1..] == [x];
    } else {
      assert (items + [x])[1..] == items[1..] + [x];
      JoinSnoc(items[1..], x, sep);
    }
  }

  // ---------------------------------------------------------------------------
  // The properties of the list codec

  /** Round trip: a list of proper items shown in the form and saved unchanged
      is sent back exactly as it was loaded. */
  lemma {:induction false} ParseShowRoundTrip(items: seq<string>)
    requires forall i :: 0 <= i < |items| ==> IsListItem(items[i])
    ensures ParseList(ShowList(items)) == items
  {
    if items == [] {
      assert ShowList(items) == "";
    } else {
      assert "" + ShowList(items) == ShowList(items);
      SplitJoin("", items);
      assert "" + items[0] == items[0];
      var parts := [items[0]] + Spaced(items[1..]);
      TrimOfTrimmed(items[0]);
      TrimAllSpaced(items[1..]);
      assert TrimAll(parts) == [items[0]] + TrimAll(Spaced(items[1..]));
      assert TrimAll(parts) == items;
      NonEmptyOfNonEmpty(items);
    }
  }

  lemma {:induction false} NonEmptyItems(parts: seq<string>)
    requires forall i :: 0 <= i < |parts| ==> IsTrimmed(parts[i]) && ',' !in parts[i]
    ensures forall i :: 0 <= i < |NonEmpty(parts)| ==> IsListItem(NonEmpty(parts)[i])
  {
    if parts != [] {
      NonEmptyItems(parts[1..]);
    }
  }

  lemma {:induction false} TrimAllItems(parts: seq<string>)
    requires forall i :: 0 <= i < |parts| ==> ',' !in parts[i]
    ensures forall i :: 0 <= i < |TrimAll(parts)| ==> IsTrimmed(TrimAll(parts)[i]) && ',' !in TrimAll(parts)[i]
  {
    if parts != [] {
      assert ',' !in parts[0];
      TrimIsTrimmed(parts[0]);
      TrimKeepsCharacters(parts[0], ',');
      var rest := parts[1..];
      assert forall i :: 0 <= i < |rest| ==> ',' !in rest[i] by {
        forall i | 0 <= i < |rest| ensures ',' !in rest[i] {
          assert rest[i] == parts[i + 1];
        }
      }
      TrimAllItems(rest);
      var r := TrimAll(parts);
      assert r == [Trim(parts[0])] + TrimAll(rest);
      forall i | 0 <= i < |r| ensures IsTrimmed(r[i]) && ',' !in r[i] {
        if i > 0 {
          assert r[i] == TrimAll(rest)[i - 1];
        }
      }
    }
  }

  /** Every item parsed from a list field is non-empty, trimmed and comma-free;
      the empty text parses to the empty list. */
  /** Every character of `s` is white space. */
  predicate AllSpace(s: string) {
    forall i :: 0 <= i < |s| ==> IsSpace(s[i])
  }

  /** `s` holds nothing but commas and white space. */
  predicate OnlySeparators(s: string) {
    forall i :: 0 <= i < |s| ==> s[i] == ',' || IsSpace(s[i])
  }

  /** `trim()` empties a string of white space. */
  lemma {:induction false} TrimAllSpace(s: string)
    requires AllSpace(s)
    ensures Trim(s) == ""
  {
    TrimStartAllSpace(s);
  }

  lemma {:induction false} TrimStartAllSpace(s: string)
    requires AllSpace(s)
    ensures TrimStart(s) == ""
  {
    if s != [] {
      assert IsSpace(s[0]);
      TrimStartAllSpace(s[1..]);
    }
  }

  /** Splitting a text of separators leaves parts of white space only. */
  lemma {:induction false} SplitSeparators(s: string)
    requires OnlySeparators(s)
    ensures forall i :: 0 <= i < |Split(s)| ==> AllSpace(Split(s)[i])
  {
    if s != [] {
      assert OnlySeparators(s[1..]);
      SplitSeparators(s[1..]);
      var rest := Split(s[1..]);
      if s[0] != ',' {
        assert AllSpace([s[0]] + rest[0]);
        assert Split(s) == [[s[0]] + rest[0]] + rest[1..];
      }
    }
  }

  lemma {:induction false} TrimAllOfSpaces(parts: seq<string>)
    requires forall i :: 0 <= i < |parts| ==> AllSpace(parts[i])
    ensures forall i :: 0 <= i < |parts| ==> TrimAll(parts)[i] == ""
  {
    if parts != [] {
      TrimAllSpace(parts[0]);
      TrimAllOfSpaces(parts[1..]);
    }
  }

  lemma {:induction false} NonEmptyOfEmpties(parts: seq<string>)
    requires forall i :: 0 <= i < |parts| ==> parts[i] == ""
    ensures NonEmpty(parts) == []
  {
    if parts != [] {
      NonEmptyOfEmpties(parts[1..]);
    }
  }

  /** A text made only of commas and white space parses to no items. */
  lemma SeparatorsParseToNothing(text: string)
    requires OnlySeparators(text)
    ensures ParseList(text) == []
  {
    SplitSeparators(text);
    TrimAllOfSpaces(Split(text));
    NonEmptyOfEmpties(TrimAll(Split(text)));
  }

  lemma ParseListItems(text: string)
    ensures forall i :: 0 <= i < |ParseList(text)| ==> IsListItem(ParseList(text)[i])
    ensures text == "" ==> ParseList(text) == []
  {
    SplitPartsCommaFree(text);
    TrimAllItems(Split(text));
    NonEmptyItems(TrimAll(Split(text)));
  }

  /** Saving, loading and saving again sends the same list as the first save:
      the codec normalises in one step. */
  lemma ParseShowParse(text: string)
    ensures ParseList(ShowList(ParseList(text))) == ParseList(text)
  {
    ParseListItems(text);
    ParseShowRoundTrip(ParseList(text));
  }
}
