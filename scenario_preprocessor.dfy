/** The scenario preprocessor: the ScenarioResult record every later step
    fills in, recursive placeholder substitution over a query template, the
    filter-then-sort of result rows, and the parsing of a longform reply
    after JSON decoding. */
module ScenarioPreprocessor {
  import opened Wrappers
  import opened Text
  import opened Json
  import opened Ranking

  // ---- ScenarioResult ----

  /** The optional fields that are declared once. */
  const SCALAR_FIELDS: seq<string> := [
    "today_date", "currency", "account_list",
    "total_target", "total_est_sales", "total_ach_rate", "total_billing", "total_yoy",
    "top5_accounts", "top5_prdgs",
    "cnt_cred_block", "cnt_del_block", "cnt_unconf_delay", "cnt_do_delay", "cnt_incomplete",
    "total_billed_order", "total_open_order", "total_blocked_order", "total_upcoming_order",
    "LAPA00", "SOSE00", "SODE00", "PGSE00", "PGDE00", "MODE00", "OPTR00"]

  /** The optional fields declared once for each i in 1..5, as top{i}<suffix>. */
  const INDEXED_SUFFIXES: seq<string> := [
    "_account_order", "_account_top1_prdg", "_account_top1_prdg_top5_model",
    "_prdg_order", "_prdg_top1_prd", "_prdg_top1_prd_top5_model", "_prdg_top5_account",
    "_account_top1_prdg_top5_model_order", "_prdg_top1_prd_top5_model_order"]

  /** f"top{i}{suffix}" */
  function Indexed(i: nat, suffix: string): string
    requires i <= 9
  {
    "top" + [Digit(i)] + suffix
  }

  /** Every optional field the model declares; each defaults to None. */
  function DeclaredFields(): set<string> {
    (set f | f in SCALAR_FIELDS) + (set i: nat, suffix | 1 <= i <= 5 && suffix in INDEXED_SUFFIXES :: Indexed(i, suffix))
  }

  /** The optional attributes of a freshly built result: every declared
      field is present and None. */
  function DefaultAttrs(): (m: map<string, Json>)
    ensures m.Keys == DeclaredFields()
    ensures forall f :: f in m ==> m[f] == Null
  {
    map f | f in DeclaredFields() :: Null
  }

  /** The scenario result: four required strings and the optional fields.
      Extra attributes are allowed, so `attrs` also receives names that are
      not declared (CUR, for one). */
  class ScenarioResult {
    var executionId: string
    var senderName: string
    var userId: string
    var chatroomId: string
    var attrs: map<string, Json>

    constructor (executionId: string, senderName: string, userId: string, chatroomId: string)
      ensures this.executionId == executionId && this.senderName == senderName
      ensures this.userId == userId && this.chatroomId == chatroomId
      ensures attrs == DefaultAttrs()
    {
      this.executionId := executionId;
      this.senderName := senderName;
      this.userId := userId;
      this.chatroomId := chatroomId;
      attrs := DefaultAttrs();
    }

    /** setattr(result, name, value) */
    method SetAttr(name: string, value: Json)
      modifies this
      ensures attrs == old(attrs)[name := value]
      ensures executionId == old(executionId) && senderName == old(senderName)
      ensures userId == old(userId) && chatroomId == old(chatroomId)
    {
      attrs := attrs[name := value];
    }
  }

  /** Every indexed attribute an ensure-defaults loop names is declared, so
      "set it when missing" never fires on a result built by the
      constructor. */
  lemma IndexedDeclared(i: nat, suffix: string)
    requires 1 <= i <= 5 && suffix in INDEXED_SUFFIXES
    ensures Indexed(i, suffix) in DefaultAttrs()
  {
  }

  // ---- replace_placeholders ----

  /** The text of an item contains some key of params (Python's
      `any(ph in str(item) for ph in params)`). */
  predicate MentionsKey(item: Json, params: map<string, Json>) {
    exists ph :: ph in params && Contains(PyStr(item), ph)
  }

  /** Whether an item's replacement is spliced into the enclosing list. */
  predicate Spliced(item: Json, replaced: Json, params: map<string, Json>) {
    replaced.List? && MentionsKey(item, params)
  }

  /** What one list item contributes to the new list. */
  function Piece(item: Json, replaced: Json, params: map<string, Json>): seq<Json> {
    if Spliced(item, replaced, params) then replaced.items else [replaced]
  }

  /** replace_placeholders as a value: dict values are rewritten, a string
      equal to a key is replaced by that key's value, list items are
      replaced and possibly spliced, anything else is kept. */
  function Replace(obj: Json, params: map<string, Json>): Json
    decreases obj, 1
  {
    match obj
    case Object(m) => Object(map k | k in m :: Replace(m[k], params))
    case List(xs) => List(ReplaceItems(obj, xs, params))
    case Str(s) => if s in params then params[s] else obj
    case _ => obj
  }

  /** The list loop, over the items in order. */
  function ReplaceItems(parent: Json, xs: seq<Json>, params: map<string, Json>): seq<Json>
    requires forall i :: 0 <= i < |xs| ==> xs[i] < parent
    decreases parent, 0, |xs|
  {
    if xs == [] then []
    else
      var item := xs[|xs| - 1];
      assert item in xs;
      ReplaceItems(parent, xs[..|xs| - 1], params) + Piece(item, Replace(item, params), params)
  }

  /** replace_placeholders: a recursive walk whose list branch builds the
      new list with append and extend. */
  method ReplacePlaceholders(obj: Json, params: map<string, Json>) returns (r: Json)
    ensures r == Replace(obj, params)
    decreases obj
  {
    match obj
    case Object(m) =>
      var keys := m.Keys;
      var acc: map<string, Json> := map[];
      while keys != {}
        invariant keys <= m.Keys
        invariant acc == map k | k in m.Keys - keys :: Replace(m[k], params)
        decreases keys
      {
        var k :| k in keys;
        var v := ReplacePlaceholders(m[k], params);
        acc := acc[k := v];
        keys := keys - {k};
      }
      assert m.Keys - keys == m.Keys;
      r := Object(acc);
    case List(xs) =>
      var newList: seq<Json> := [];
      var i := 0;
      while i < |xs|
        invariant 0 <= i <= |xs|
        invariant newList == ReplaceItems(obj, xs[..i], params)
      {
        var item := xs[i];
        var replaced := ReplacePlaceholders(item, params);
        assert xs[..i + 1][..i] == xs[..i];
        if replaced.List? && MentionsKey(item, params) {
          newList := newList + replaced.items;
        } else {
          newList := newList + [replaced];
        }
        i := i + 1;
      }
      assert xs[..|xs|] == xs;
      r := List(newList);
    case Str(s) =>
      r := if s in params then params[s] else obj;
    case Null =>
      r := obj;
    case Bool(_) =>
      r := obj;
    case Int(_) =>
      r := obj;
  }

  /** Only a string equal to a key is replaced; a string that merely
      contains a key is kept as it is. */
  lemma ExactMatchOnly(s: string, params: map<string, Json>)
    ensures s in params ==> Replace(Str(s), params) == params[s]
    ensures s !in params ==> Replace(Str(s), params) == Str(s)
  {
  }

  /** A dict keeps its keys; only its values are rewritten. */
  lemma KeysPreserved(m: map<string, Json>, params: map<string, Json>)
    ensures Replace(Object(m), params).Object?
    ensures Replace(Object(m), params).fields.Keys == m.Keys
    ensures forall k :: k in m ==> Replace(Object(m), params).fields[k] == Replace(m[k], params)
  {
  }

  /** None, booleans and numbers pass through. */
  lemma ScalarsUnchanged(v: Json, params: map<string, Json>)
    requires v.Null? || v.Bool? || v.Int?
    ensures Replace(v, params) == v
  {
  }

  /** With no placeholders at all the walk is the identity. */
  lemma {:induction false} EmptyParamsIdentity(obj: Json)
    ensures Replace(obj, map[]) == obj
    decreases obj, 1
  {
    match obj
    case Object(m) =>
      forall k | k in m ensures Replace(m[k], map[]) == m[k] {
        EmptyParamsIdentity(m[k]);
      }
      assert (map k | k in m :: Replace(m[k], map[])) == m;
    case List(xs) =>
      EmptyParamsItems(obj, xs);
    case _ =>
  }

  lemma {:induction false} EmptyParamsItems(parent: Json, xs: seq<Json>)
    requires forall i :: 0 <= i < |xs| ==> xs[i] < parent
    ensures ReplaceItems(parent, xs, map[]) == xs
    decreases parent, 0, |xs|
  {
    if xs != [] {
      var item := xs[|xs| - 1];
      assert item in xs;
      var init := xs[..|xs| - 1];
      EmptyParamsItems(parent, init);
      EmptyParamsIdentity(item);
      assert !MentionsKey(item, map[]);
      assert Piece(item, Replace(item, map[]), map[]) == [item];
      assert ReplaceItems(parent, xs, map[]) == ReplaceItems(parent, init, map[]) + [item];
      assert xs == init + [item];
    }
  }

  /** When no item is spliced, the new list is the old one item by item:
      the length changes only through splicing. */
  lemma {:induction false} NoSpliceKeepsItems(parent: Json, xs: seq<Json>, params: map<string, Json>)
    requires forall i :: 0 <= i < |xs| ==> xs[i] < parent
    requires forall i :: 0 <= i < |xs| ==> !Spliced(xs[i], Replace(xs[i], params), params)
    ensures |ReplaceItems(parent, xs, params)| == |xs|
    ensures forall i :: 0 <= i < |xs| ==> ReplaceItems(parent, xs, params)[i] == Replace(xs[i], params)
    decreases |xs|
  {
    if xs != [] {
      var init := xs[..|xs| - 1];
      assert forall x :: x in init ==> x in xs;
      assert forall i :: 0 <= i < |init| ==> init[i] == xs[i];
      NoSpliceKeepsItems(parent, init, params);
    }
  }

  /** A list-valued placeholder standing alone as an item is spliced: the
      list's items take the placeholder's place. */
  lemma ListPlaceholderSpliced(s: string, params: map<string, Json>)
    requires s in params && params[s].List?
    ensures Piece(Str(s), Replace(Str(s), params), params) == params[s].items
  {
    assert s <= s;
    assert Contains(PyStr(Str(s)), s);
  }

  /** A quirk of the splice test: a nested list mentioning a key is
      flattened one level even when the key is replaced by a string. */
  lemma NestedListFlattened()
    ensures Replace(List([List([Str("{x}")])]), map["{x}" := Str("a")]) == List([Str("a")])
  {
    var params := map["{x}" := Str("a")];
    var inner := List([Str("{x}")]);
    assert ReplaceItems(inner, [Str("{x}")], params) == [Str("a")] by {
      assert [Str("{x}")][..0] == [];
      assert !Spliced(Str("{x}"), Str("a"), params);
    }
    assert PyStr(inner) == "['{x}']";
    assert Contains("['{x}']", "{x}") by {
      assert "{x}" <= "['{x}']"[2..];
      assert Contains("['{x}']"[2..], "{x}");
      assert "['{x}']"[1..][1..] == "['{x}']"[2..];
      assert Contains("['{x}']"[1..], "{x}");
    }
    assert MentionsKey(inner, params);
    assert [inner][..0] == [];
  }

  // ---- filter_and_sort_rows ----

  const TARGET_PLAN := "Target Plan"
  const ACH_VS_TARGET := "Ach. vs Target Plan"
  const EST_SALES := "Est. Sales"

  /** A result row: its cells by header position. */
  type Row = seq<int>

  /** list.index: the first position of x, or None where Python raises. */
  function IndexOf(xs: seq<string>, x: string): (r: Option<nat>)
    ensures r.Some? ==> r.value < |xs| && xs[r.value] == x && forall j :: 0 <= j < r.value ==> xs[j] != x
    ensures r.None? <==> x !in xs
  {
    if xs == [] then None
    else if xs[0] == x then Some(0)
    else match IndexOf(xs[1..], x)
      case None => None
      case Some(j) => Some(j + 1)
  }

  function Filter(xs: seq<Row>, p: Row -> bool): (r: seq<Row>)
    ensures multiset(r) <= multiset(xs)
    ensures forall x :: x in r <==> x in xs && p(x)
    ensures |r| <= |xs|
    ensures r == [] <==> forall x :: x in xs ==> !p(x)
  {
    if xs == [] then []
    else
      assert xs == [xs[0]] + xs[1..];
      (if p(xs[0]) then [xs[0]] else []) + Filter(xs[1..], p)
  }

  /** The first filter: a nonzero target and an achievement under 100
      (the achievement cell is read only when the target is nonzero). */
  function FirstKeep(it: nat, ia: nat): Row -> bool {
    r => it < |r| && r[it] != 0 && ia < |r| && r[ia] < 100
  }

  /** The fallback filter: an achievement under 100. */
  function FallbackKeep(ia: nat): Row -> bool {
    r => ia < |r| && r[ia] < 100
  }

  /** The cells the first filter reads exist. */
  predicate FirstReadable(r: Row, it: nat, ia: nat) {
    it < |r| && (r[it] != 0 ==> ia < |r|)
  }

  predicate KeyReadable(r: Row, it: nat, ia: nat, ie: nat) {
    it < |r| && ia < |r| && ie < |r|
  }

  /** The sort key (Ach, -Target, Est) of a row. */
  function RowKey(it: nat, ia: nat, ie: nat): Row -> SortKey {
    r => if KeyReadable(r, it, ia, ie) then KeyOf(r[ia], r[it], r[ie]) else SortKey(0, 0, 0)
  }

  /** Which rows are sorted: the first filter's, or the fallback's when
      the first keeps nothing. */
  function Kept(rows: seq<Row>, it: nat, ia: nat): seq<Row> {
    var first := Filter(rows, FirstKeep(it, ia));
    if first != [] then first else Filter(rows, FallbackKeep(ia))
  }

  /** The filter and the sort at known column positions. A cell that does
      not exist where Python reads it raises IndexError. */
  function SelectAndSort(rows: seq<Row>, it: nat, ia: nat, ie: nat): Result<seq<Row>> {
    if exists r :: r in rows && !FirstReadable(r, it, ia) then Err("IndexError")
    else if Filter(rows, FirstKeep(it, ia)) == [] && exists r :: r in rows && ia >= |r| then Err("IndexError")
    else
      var kept := Kept(rows, it, ia);
      if exists r :: r in kept && !KeyReadable(r, it, ia, ie) then Err("IndexError")
      else Ok(StableSort(kept, RowKey(it, ia, ie)))
  }

  /** filter_and_sort_rows: the three column positions, then the filter
      and the sort. */
  function FilterAndSortRows(headers: seq<string>, rows: seq<Row>): (r: Result<seq<Row>>)
    ensures TARGET_PLAN !in headers || ACH_VS_TARGET !in headers || EST_SALES !in headers ==> r == Err("ValueError")
  {
    match (IndexOf(headers, TARGET_PLAN), IndexOf(headers, ACH_VS_TARGET), IndexOf(headers, EST_SALES))
    case (Some(it), Some(ia), Some(ie)) => SelectAndSort(rows, it, ia, ie)
    case _ => Err("ValueError")
  }

  /** Every returned row's achievement is under 100, and the rows are a
      sub-multiset of the input. */
  lemma SelectedBelow100(rows: seq<Row>, it: nat, ia: nat, ie: nat)
    requires SelectAndSort(rows, it, ia, ie).Ok?
    ensures forall r :: r in SelectAndSort(rows, it, ia, ie).value ==> ia < |r| && r[ia] < 100
    ensures multiset(SelectAndSort(rows, it, ia, ie).value) <= multiset(rows)
  {
    var out := SelectAndSort(rows, it, ia, ie).value;
    assert multiset(out) == multiset(Kept(rows, it, ia));
    forall r | r in out ensures ia < |r| && r[ia] < 100 {
      assert r in multiset(out);
      assert r in Kept(rows, it, ia);
    }
  }

  /** When some row has a nonzero target and an achievement under 100,
      exactly those rows are kept, so no returned row has a zero target. */
  lemma NonZeroTargetPreferred(rows: seq<Row>, it: nat, ia: nat, ie: nat)
    requires SelectAndSort(rows, it, ia, ie).Ok?
    requires exists r :: r in rows && FirstKeep(it, ia)(r)
    ensures multiset(SelectAndSort(rows, it, ia, ie).value) == multiset(Filter(rows, FirstKeep(it, ia)))
    ensures forall r :: r in SelectAndSort(rows, it, ia, ie).value ==> it < |r| && r[it] != 0
  {
    var r0 :| r0 in rows && FirstKeep(it, ia)(r0);
    assert r0 in Filter(rows, FirstKeep(it, ia));
    var out := SelectAndSort(rows, it, ia, ie).value;
    forall r | r in out ensures it < |r| && r[it] != 0 {
      assert r in multiset(out);
      assert r in Kept(rows, it, ia);
    }
  }

  /** Otherwise the fallback keeps every row whose achievement is under 100. */
  lemma FallbackKeepsAllBelow100(rows: seq<Row>, it: nat, ia: nat, ie: nat)
    requires SelectAndSort(rows, it, ia, ie).Ok?
    requires forall r :: r in rows ==> !FirstKeep(it, ia)(r)
    ensures multiset(SelectAndSort(rows, it, ia, ie).value) == multiset(Filter(rows, FallbackKeep(ia)))
  {
  }

  /** The output is ordered by achievement, then target descending, then
      estimated sales, and rows with equal keys keep their input order. */
  lemma SelectedSortedAndStable(rows: seq<Row>, it: nat, ia: nat, ie: nat, k: SortKey)
    requires SelectAndSort(rows, it, ia, ie).Ok?
    ensures SortedBy(SelectAndSort(rows, it, ia, ie).value, RowKey(it, ia, ie))
    ensures WithKey(SelectAndSort(rows, it, ia, ie).value, RowKey(it, ia, ie), k)
         == WithKey(Kept(rows, it, ia), RowKey(it, ia, ie), k)
  {
    StableSortSorted(Kept(rows, it, ia), RowKey(it, ia, ie));
    StableSortStable(Kept(rows, it, ia), RowKey(it, ia, ie), k);
  }

  /** Rows long enough for all three columns never raise. */
  lemma WideRowsSucceed(rows: seq<Row>, it: nat, ia: nat, ie: nat)
    requires forall r :: r in rows ==> KeyReadable(r, it, ia, ie)
    ensures SelectAndSort(rows, it, ia, ie).Ok?
  {
    forall r | r in Kept(rows, it, ia) ensures KeyReadable(r, it, ia, ie) {
      assert r in rows;
    }
  }

  // ---- parse_longform ----

  const BOM: char := '\U{FEFF}'
  const NBSP: char := '\U{A0}'

  /** The decoded longform's parts: the headers and the rows value as
      given. */
  datatype Longform = Longform(headers: seq<string>, rows: Json)

  const EMPTY_LONGFORM := Longform([], EmptyList)

  /** longform.get("meta", {}).get("content", ""), stripped of leading
      BOMs and then of surrounding whitespace; an attribute error where a
      value is not a dict or a string. */
  function MetaText(longform: Json): Result<string> {
    if !longform.Object? then Err("AttributeError")
    else
      var meta := Get(longform.fields, "meta", EmptyObject);
      if !meta.Object? then Err("AttributeError")
      else
        var content := Get(meta.fields, "content", Str(""));
        if !content.Str? then Err("AttributeError")
        else Ok(Strip(LStripChar(content.s, BOM)))
  }

  /** [h.replace("\xa0", " ") for h in headers]; each header must be a
      string. */
  function CleanHeaders(items: seq<Json>): (r: Result<seq<string>>)
    ensures r.Ok? ==> (|r.value| == |items|
      && forall i :: 0 <= i < |items| ==> items[i].Str? && r.value[i] == ReplaceChar(items[i].s, NBSP, ' '))
    ensures r.Err? ==> exists i :: 0 <= i < |items| && !items[i].Str?
  {
    if items == [] then Ok([])
    else if !items[0].Str? then Err("AttributeError")
    else match CleanHeaders(items[1..])
      case Err(e) =>
        assert exists i :: 0 <= i < |items[1..]| && !items[1..][i].Str?;
        var i :| 0 <= i < |items[1..]| && !items[1..][i].Str?;
        assert !items[i + 1].Str?;
        Err(e)
      case Ok(rest) => Ok([ReplaceChar(items[0].s, NBSP, ' ')] + rest)
  }

  /** Python's iteration over a value, as the comprehension over
      `headers` does it: a list gives its items, a string its characters
      (each a one-character string) and a dict its keys; anything else is
      not iterable. Dict keys come in code point order here. */
  function Iterate(v: Json): (r: Result<seq<Json>>)
    ensures v.List? ==> r == Ok(v.items)
    ensures v.Str? ==> r.Ok? && |r.value| == |v.s| && forall i :: 0 <= i < |v.s| ==> r.value[i] == Str([v.s[i]])
    ensures v.Object? ==>
      (&& r.Ok? && |r.value| == |v.fields|
       && (forall i :: 0 <= i < |r.value| ==> r.value[i].Str? && r.value[i].s in v.fields)
       && (forall k :: k in v.fields ==> Str(k) in r.value))
    ensures !(v.List? || v.Str? || v.Object?) <==> r == Err("TypeError")
  {
    match v
    case List(xs) => Ok(xs)
    case Str(t) => Ok(seq(|t|, i requires 0 <= i < |t| => Str([t[i]])))
    case Object(m) => Ok(KeyItems(m))
    case _ => Err("TypeError")
  }

  /** The keys of a dict as strings, each once, in code point order. */
  function KeyItems(m: map<string, Json>): (r: seq<Json>)
    ensures |r| == |m|
    ensures forall i :: 0 <= i < |r| ==> r[i].Str? && r[i].s in m
    ensures forall k :: k in m ==> Str(k) in r
  {
    var keys := SortedStrings(m.Keys);
    assert forall k :: k in m ==> k in keys;
    var r := seq(|keys|, i requires 0 <= i < |keys| => Str(keys[i]));
    assert forall k :: k in m ==> Str(k) in r by {
      forall k | k in m ensures Str(k) in r {
        var i :| 0 <= i < |keys| && keys[i] == k;
        assert r[i] == Str(k);
      }
    }
    r
  }

  /** What parse_longform makes of the decoded meta content. */
  function FromContent(content: Json): (r: Result<Longform>)
    ensures r.Ok? ==> forall i, j :: 0 <= i < |r.value.headers| && 0 <= j < |r.value.headers[i]| ==> r.value.headers[i][j] != NBSP
  {
    if !content.Object? then Err("AttributeError")
    else
      match Iterate(Get(content.fields, "headers", EmptyList))
      case Err(e) => Err(e)
      case Ok(hs) =>
        match CleanHeaders(hs)
        case Err(e) => Err(e)
        case Ok(headers) => Ok(Longform(headers, Get(content.fields, "rows", EmptyList)))
  }

  /** A string `headers` value gives one header per character, each with an
      NBSP turned into a space. */
  lemma StringHeadersAreCharacters(content: Json, s: string)
    requires content.Object? && "headers" in content.fields && content.fields["headers"] == Str(s)
    ensures FromContent(content).Ok?
    ensures var hs := FromContent(content).value.headers;
      |hs| == |s| && forall i :: 0 <= i < |s| ==> hs[i] == [if s[i] == NBSP then ' ' else s[i]]
  {
    var items := Iterate(Str(s)).value;
    assert forall i :: 0 <= i < |items| ==> items[i].Str?;
    CleanHeadersOk(items);
  }

  /** A dict `headers` value gives its keys as the headers, one each. */
  lemma DictHeadersAreKeys(content: Json, m: map<string, Json>)
    requires content.Object? && "headers" in content.fields && content.fields["headers"] == Object(m)
    ensures FromContent(content).Ok?
    ensures var hs := FromContent(content).value.headers;
      |hs| == |m| && forall k :: k in m ==> ReplaceChar(k, NBSP, ' ') in hs
  {
    var items := Iterate(Object(m)).value;
    HeadersOfItems(content, items);
    KeysCleaned(items, m);
  }

  /** Headers that iterate to strings are those strings, cleaned. */
  lemma HeadersOfItems(content: Json, items: seq<Json>)
    requires content.Object? && "headers" in content.fields && Iterate(content.fields["headers"]) == Ok(items)
    requires forall i :: 0 <= i < |items| ==> items[i].Str?
    ensures CleanHeaders(items).Ok?
    ensures FromContent(content).Ok? && FromContent(content).value.headers == CleanHeaders(items).value
  {
    CleanHeadersOk(items);
  }

  /** Strings that include every key of m, cleaned: each key's cleaned
      text is among the headers. */
  lemma KeysCleaned(items: seq<Json>, m: map<string, Json>)
    requires forall i :: 0 <= i < |items| ==> items[i].Str?
    requires forall k :: k in m ==> Str(k) in items
    ensures CleanHeaders(items).Ok?
    ensures forall k :: k in m ==> ReplaceChar(k, NBSP, ' ') in CleanHeaders(items).value
  {
    CleanHeadersOk(items);
    var hs := CleanHeaders(items).value;
    forall k | k in m ensures ReplaceChar(k, NBSP, ' ') in hs {
      var i :| 0 <= i < |items| && items[i] == Str(k);
      assert hs[i] == ReplaceChar(k, NBSP, ' ');
    }
  }

  /** A number, boolean or null `headers` value is not iterable. */
  lemma ScalarHeadersRaise(content: Json)
    requires content.Object? && "headers" in content.fields
    requires var h := content.fields["headers"]; h.Null? || h.Bool? || h.Int?
    ensures FromContent(content) == Err("TypeError")
  {
  }

  /** Headers that are all strings are cleaned without an error. */
  lemma {:induction false} CleanHeadersOk(items: seq<Json>)
    requires forall i :: 0 <= i < |items| ==> items[i].Str?
    ensures CleanHeaders(items).Ok?
  {
    if items != [] {
      CleanHeadersOk(items[1..]);
    }
  }

  /** parse_longform, given the JSON decoder as a function that answers
      None for invalid text. */
  function ParseLongform(longform: Json, decode: string -> Option<Json>): Result<Longform> {
    match MetaText(longform)
    case Err(e) => Err(e)
    case Ok(text) =>
      if text == "" || text == "{}" || text == "[]" then Ok(EMPTY_LONGFORM)
      else match decode(text)
        case None => Ok(EMPTY_LONGFORM)
        case Some(content) => FromContent(content)
  }

  /** Empty content, "{}" and "[]" give no headers and no rows, without
      consulting the decoder. */
  lemma EmptyMetaGivesNothing(longform: Json, decode: string -> Option<Json>)
    requires MetaText(longform).Ok?
    requires MetaText(longform).value in {"", "{}", "[]"}
    ensures ParseLongform(longform, decode) == Ok(EMPTY_LONGFORM)
  {
  }

  /** Content the decoder rejects gives no headers and no rows. */
  lemma InvalidMetaGivesNothing(longform: Json, decode: string -> Option<Json>)
    requires MetaText(longform).Ok? && decode(MetaText(longform).value).None?
    ensures ParseLongform(longform, decode) == Ok(EMPTY_LONGFORM)
  {
  }

  /** Returned headers contain no non-breaking space: each is its source
      header with every NBSP turned into a space. */
  lemma HeadersHaveNoNbsp(longform: Json, decode: string -> Option<Json>)
    requires ParseLongform(longform, decode).Ok?
    ensures var hs := ParseLongform(longform, decode).value.headers;
      forall i, j :: 0 <= i < |hs| && 0 <= j < |hs[i]| ==> hs[i][j] != NBSP
  {
    var text := MetaText(longform).value;
    if !(text == "" || text == "{}" || text == "[]") && decode(text).Some? {
      assert ParseLongform(longform, decode) == FromContent(decode(text).value);
    }
  }

  /** The meta content's text, with the content given directly. */
  function Wrapped(content: string): Json {
    Object(map["meta" := Object(map["content" := Str(content)])])
  }

  /** A leading byte order mark does not change the result. */
  lemma LeadingBomIgnored(content: string, decode: string -> Option<Json>)
    ensures ParseLongform(Wrapped([BOM] + content), decode) == ParseLongform(Wrapped(content), decode)
  {
    WrappedText([BOM] + content);
    WrappedText(content);
    assert ([BOM] + content)[1..] == content;
    assert LStripChar([BOM] + content, BOM) == LStripChar(content, BOM);
    SameTextSameResult(Wrapped([BOM] + content), Wrapped(content), decode);
  }

  lemma SameTextSameResult(a: Json, b: Json, decode: string -> Option<Json>)
    requires MetaText(a) == MetaText(b)
    ensures ParseLongform(a, decode) == ParseLongform(b, decode)
  {
  }

  lemma WrappedText(content: string)
    ensures MetaText(Wrapped(content)) == Ok(Strip(LStripChar(content, BOM)))
  {
    var meta := Object(map["content" := Str(content)]);
    assert Get(Wrapped(content).fields, "meta", EmptyObject) == meta;
    assert Get(meta.fields, "content", Str("")) == Str(content);
  }
}
