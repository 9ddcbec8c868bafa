/** What filter values and additional filters mean as they are read, and the length of their JSON text. */
module FilterInput {
  import opened Options
  import opened Reports
  import Text

  // --- Values ----------------------------------------------------------------------------------

  /** The blanks are the 29 white space characters of Unicode that Python counts. */
  lemma SpaceExactly(c: char)
    ensures Space(c) <==>
            c as int in {0x9, 0xa, 0xb, 0xc, 0xd, 0x1c, 0x1d, 0x1e, 0x1f, 0x20, 0x85, 0xa0, 0x1680, 0x2000, 0x2001, 0x2002, 0x2003, 0x2004,
                         0x2005, 0x2006, 0x2007, 0x2008, 0x2009, 0x200a, 0x2028, 0x2029, 0x202f, 0x205f, 0x3000}
  {
  }

  ghost predicate Blanks(s: string) {
    forall c :: c in s ==> Space(c)
  }

  /** The text without the blanks around it. */
  ghost predicate Trimmed(s: string, v: string) {
    && (exists left, right :: Blanks(left) && Blanks(right) && s == left + v + right)
    && (v != "" ==> !Space(v[0]) && !Space(v[|v| - 1]))
  }

  lemma {:induction false} StripParts(s: string) returns (left: string, right: string)
    ensures Blanks(left) && Blanks(right) && s == left + Strip(s) + right
  {
    hide Space;
    left, right := "", "";
    if s != "" {
      if Space(s[0]) {
        var l, r := StripParts(s[1..]);
        left, right := [s[0]] + l, r;
        assert s == [s[0]] + s[1..] == [s[0]] + (l + Strip(s) + r);
      } else if Space(s[|s| - 1]) {
        var l, r := StripParts(s[..|s| - 1]);
        left, right := l, r + [s[|s| - 1]];
        assert s == s[..|s| - 1] + [s[|s| - 1]] == l + Strip(s) + r + [s[|s| - 1]];
      }
    }
  }

  lemma StripTrims(s: string)
    ensures Trimmed(s, Strip(s))
  {
    hide Space;
    var left, right := StripParts(s);
  }

  /** At most a hundred values of at most 1024 characters are accepted; they become the set of them, in
      order, account numbers trimmed and empty values left out. */
  lemma ValuesMeaning(key: FilterKey, raw: seq<string>)
    ensures Values(key, raw).Accepted? <==> |raw| <= 100 && forall v :: v in raw ==> |v| <= 1024
    ensures Values(key, raw).Accepted? ==>
              && Text.Ascending(Values(key, raw).value)
              && forall v :: v in Values(key, raw).value <==>
                             v != "" && if key == Account then exists u :: u in raw && Strip(u) == v else v in raw
  {
  }

  // --- Additional filters ----------------------------------------------------------------------------

  /** An entry names its kind and a key, its matching is readable, and it selects values or absence. */
  predicate Readable(raw: RawKeyed) {
    && raw.kind.Some? && raw.key != "" && |raw.key| <= 120 && raw.mode != Unknown
    && |raw.values| <= 100 && (forall v :: v in raw.values ==> |v| <= 1024)
    && (raw.absent ==> raw.values == [])
  }

  /** The filter an entry stands for; the empty value gets its name. */
  ghost predicate StandsFor(raw: RawKeyed, k: Keyed) {
    && raw.kind == Some(k.kind) && raw.key == k.key && raw.absent == k.absent
    && (raw.mode == Missing ==> k.mode == Include) && (raw.mode != Missing ==> raw.mode == Chosen(k.mode))
    && Text.Ascending(k.values)
    && forall v :: v in k.values <==> v != "" && (v in raw.values || (v == EMPTY_VALUE && "" in raw.values))
  }

  lemma ParsedExactly(raw: RawKeyed)
    ensures ParseKeyed(raw).Some? <==> Readable(raw)
    ensures ParseKeyed(raw).Some? ==> StandsFor(raw, ParseKeyed(raw).value)
  {
    var named := set v | v in raw.values :: EmptyNamed(v);
    assert raw.values != [] ==> EmptyNamed(raw.values[0]) in named;
    assert forall v :: v in named <==> v != "" && (v in raw.values || (v == EMPTY_VALUE && "" in raw.values)) by {
      forall v | v != "" && (v in raw.values || (v == EMPTY_VALUE && "" in raw.values))
        ensures v in named
      {
        assert v in raw.values ==> EmptyNamed(v) == v;
        assert EmptyNamed("") == EMPTY_VALUE;
      }
    }
  }

  /** No two entries have the same kind and key. */
  predicate Unrepeated(items: seq<RawKeyed>) {
    forall i, j :: 0 <= i < j < |items| ==> items[i].kind != items[j].kind || items[i].key != items[j].key
  }

  ghost predicate AllStandFor(items: seq<RawKeyed>, keyed: seq<Keyed>) {
    |keyed| == |items| && forall i :: 0 <= i < |items| ==> StandsFor(items[i], keyed[i])
  }

  lemma {:induction false} AllParsedExactly(items: seq<RawKeyed>)
    ensures ParseAll(items).Some? <==> (forall r :: r in items ==> Readable(r)) && Unrepeated(items)
    ensures ParseAll(items).Some? ==> AllStandFor(items, ParseAll(items).value)
  {
    hide ParseKeyed, Readable;
    if items != [] {
      var rest, raw := items[..|items| - 1], items[|items| - 1];
      assert items == rest + [raw];
      AllParsedExactly(rest);
      ParsedExactly(raw);
      if ParseAll(rest).Some? && ParseKeyed(raw).Some? {
        Repeats(rest, ParseAll(rest).value, raw, ParseKeyed(raw).value);
        hide ParseAll, StandsFor;
        assert Unrepeated(items) <==> Unrepeated(rest) && forall r :: r in rest ==> r.kind != raw.kind || r.key != raw.key;
      } else {
        assert raw in items && forall r :: r in rest ==> r in items;
        assert Unrepeated(items) ==> Unrepeated(rest);
      }
    }
  }

  lemma Repeats(rest: seq<RawKeyed>, keyed: seq<Keyed>, raw: RawKeyed, k: Keyed)
    requires AllStandFor(rest, keyed) && StandsFor(raw, k)
    ensures (exists h :: h in keyed && Same(h, k)) <==> exists r :: r in rest && r.kind == raw.kind && r.key == raw.key
  {
    if h :| h in keyed && Same(h, k) {
      var i :| 0 <= i < |keyed| && keyed[i] == h;
      assert StandsFor(rest[i], h);
      assert rest[i] in rest;
    }
    if r :| r in rest && r.kind == raw.kind && r.key == raw.key {
      var i :| 0 <= i < |rest| && rest[i] == r;
      assert StandsFor(r, keyed[i]);
      assert keyed[i] in keyed;
    }
  }

  /** `keyed_filters` accepts exactly lists of at most twenty readable entries without a repeated key,
      within the length limits; each entry becomes one filter, in order of kind and key. */
  lemma KeyedExactly(input: KeyedInput)
    ensures
      KeyedFilters(input).Accepted? <==>
      && !input.Undecodable? && (input.KeyedText? ==> input.length <= 200000) && |input.items| <= 20
      && (forall r :: r in input.items ==> Readable(r)) && Unrepeated(input.items)
      && (ParseAll(input.items).Some? ==> ListSize(ParseAll(input.items).value, 2) <= 200000)
    ensures KeyedFilters(input).Accepted? ==>
              var keyed := KeyedFilters(input).value;
              && |keyed| == |input.items| && AscendingKeyed(keyed)
              && (forall k :: k in keyed ==> exists r :: r in input.items && StandsFor(r, k))
              && (forall r :: r in input.items ==> exists k :: k in keyed && StandsFor(r, k))
  {
    if !input.Undecodable? {
      AllParsedExactly(input.items);
      if ParseAll(input.items).Some? {
        ParsedItems(input.items);
        SortedKeyed(ParseAll(input.items).value);
        BothWays(input.items, ParseAll(input.items).value);
      }
    }
    hide ParseAll, ParseKeyed, Readable, Unrepeated, ListSize, AllStandFor, StandsFor;
  }

  lemma BothWays(items: seq<RawKeyed>, keyed: seq<Keyed>)
    requires AllStandFor(items, keyed)
    ensures forall k :: k in keyed ==> exists r :: r in items && StandsFor(r, k)
    ensures forall r :: r in items ==> exists k :: k in keyed && StandsFor(r, k)
  {
    hide StandsFor;
    forall k | k in keyed
      ensures exists r :: r in items && StandsFor(r, k)
    {
      var i :| 0 <= i < |keyed| && keyed[i] == k;
      assert items[i] in items;
    }
    forall r | r in items
      ensures exists k :: k in keyed && StandsFor(r, k)
    {
      var i :| 0 <= i < |items| && items[i] == r;
      assert keyed[i] in keyed;
    }
  }

  // --- The JSON text of the filters ----------------------------------------------------------------------

  function Hex(n: nat): (c: char)
    requires n < 16
  {
    "0123456789abcdef"[n]
  }

  /** A character inside a JSON string that is not restricted to ASCII. */
  function Escaped(c: char): string {
    if c == '"' then "\\\""
    else if c == '\\' then "\\\\"
    else if c as int == 8 then "\\b"
    else if c as int == 9 then "\\t"
    else if c as int == 10 then "\\n"
    else if c as int == 12 then "\\f"
    else if c as int == 13 then "\\r"
    else if c as int < 32 then "\\u00" + [Hex(c as int / 16), Hex(c as int % 16)]
    else [c]
  }

  function EscapedText(s: string): string {
    if s == "" then "" else Escaped(s[0]) + EscapedText(s[1..])
  }

  function JsonString(s: string): string {
    "\"" + EscapedText(s) + "\""
  }

  /** Elements with a comma between them. */
  function Joined(parts: seq<string>, comma: string): string {
    if parts == [] then "" else parts[0] + (if |parts| == 1 then "" else comma) + Joined(parts[1..], comma)
  }

  function JsonStrings(values: seq<string>): (parts: seq<string>)
    ensures |parts| == |values|
  {
    if values == [] then [] else [JsonString(values[0])] + JsonStrings(values[1..])
  }

  /** One filter; `space` follows every colon and comma. */
  function JsonItem(k: Keyed, space: string): string {
    "{\"type\":" + space + JsonString(if k.kind == TagKey then "tag" else "cost_category")
    + "," + space + "\"key\":" + space + JsonString(k.key)
    + "," + space + "\"values\":" + space + "[" + Joined(JsonStrings(k.values), "," + space) + "]"
    + "," + space + "\"mode\":" + space + JsonString(if k.mode == Include then "include" else "exclude")
    + "," + space + "\"absent\":" + space + (if k.absent then "true" else "false") + "}"
  }

  function JsonItems(items: seq<Keyed>, space: string): (parts: seq<string>)
    ensures |parts| == |items|
  {
    if items == [] then [] else [JsonItem(items[0], space)] + JsonItems(items[1..], space)
  }

  /** The text of the whole list, with spaces or compact. */
  function JsonList(items: seq<Keyed>, spaced: bool): string {
    var space := if spaced then " " else "";
    "[" + Joined(JsonItems(items, space), "," + space) + "]"
  }

  lemma {:induction false} EscapedSize(s: string)
    ensures |EscapedText(s)| == TextSize(s)
  {
    if s != "" {
      assert |Escaped(s[0])| == CharSize(s[0]);
      EscapedSize(s[1..]);
    }
  }

  lemma {:induction false} JoinedStrings(values: seq<string>, comma: string)
    ensures |Joined(JsonStrings(values), comma)| == ValuesSize(values, |comma|)
  {
    if values != [] {
      EscapedSize(values[0]);
      JoinedStrings(values[1..], comma);
      hide EscapedText, TextSize;
      assert JsonStrings(values)[1..] == JsonStrings(values[1..]);
    }
  }

  lemma {:induction false} WordSize(s: string)
    requires forall i :: 0 <= i < |s| ==> 'a' <= s[i] <= 'z' || s[i] == '_'
    ensures |EscapedText(s)| == |s| && |JsonString(s)| == |s| + 2
  {
    if s != "" {
      WordSize(s[1..]);
    }
  }

  lemma WordSizes()
    ensures |JsonString("tag")| == 5 && |JsonString("cost_category")| == 15
    ensures |JsonString("include")| == 9 && |JsonString("exclude")| == 9
  {
    hide JsonString, EscapedText;
    WordSize("tag");
    WordSize("cost_category");
    WordSize("include");
    WordSize("exclude");
  }

  lemma ItemLength(k: Keyed, space: string)
    ensures |JsonItem(k, space)| == ItemSize(k, |space| + 1)
  {
    WordSizes();
    EscapedSize(k.key);
    assert |JsonString(k.key)| == 2 + TextSize(k.key);
    JoinedStrings(k.values, "," + space);
    hide JsonString, JsonStrings, Joined, TextSize, ValuesSize;
  }

  lemma {:induction false} ItemsLength(items: seq<Keyed>, space: string, comma: string)
    ensures |Joined(JsonItems(items, space), comma)|
            == ItemsSize(items, |space| + 1) + if items == [] then 0 else |comma| * (|items| - 1)
  {
    hide JsonItem, ItemSize;
    if items != [] {
      ItemLength(items[0], space);
      ItemsLength(items[1..], space, comma);
      assert JsonItems(items, space)[1..] == JsonItems(items[1..], space);
      if |items| > 1 {
        Grows(|comma|, |items| - 1);
      }
    }
  }

  lemma Grows(a: nat, n: nat)
    ensures a + a * (n - 1) == a * n
  {
  }

  /** The length that the limits are about is the length of that text. */
  lemma JsonLength(items: seq<Keyed>)
    ensures |JsonList(items, true)| == ListSize(items, SPACED) && |JsonList(items, false)| == ListSize(items, COMPACT)
  {
    ItemsLength(items, " ", "," + " ");
    ItemsLength(items, "", "," + "");
    hide JsonItems, Joined, ItemsSize;
  }
}
