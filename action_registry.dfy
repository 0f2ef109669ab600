/** The action registry's data shaping: safe wrappers, top-N by group, the
    account list, the operational-issue totals, the order details of the
    top models, and the page dictionaries built from a scenario result. */
module ActionRegistry {
  import opened Wrappers
  import opened Text
  import opened Json
  import opened Ranking
  import opened ScenarioPreprocessor

  // ---- safe wrappers ----

  /** safe_db_call: the call's value, or None when it raised. */
  function SafeDbCall<T>(call: Result<T>): (r: Option<T>)
    ensures call.Err? ==> r.None?
    ensures call.Ok? ==> r == Some(call.value)
  {
    match call
    case Ok(v) => Some(v)
    case Err(_) => None
  }

  /** `safe_db_call(...) or {}` for a call answering a dict. */
  function OrEmpty(reply: Option<map<string, Json>>): map<string, Json> {
    match reply
    case Some(m) => m
    case None => map[]
  }

  /** A call that raised reads as an empty dict; one that answered reads as
      its answer. */
  lemma FailedCallReadsEmpty(call: Result<map<string, Json>>)
    ensures call.Err? ==> OrEmpty(SafeDbCall(call)) == map[]
    ensures call.Ok? ==> OrEmpty(SafeDbCall(call)) == call.value
  {
  }

  /** safe_get_attr: getattr with a default. A declared field always exists
      (as None until set), so the default applies only to undeclared
      names. */
  function SafeGetAttr(attrs: map<string, Json>, name: string, dflt: Json): Json {
    if name in attrs then attrs[name] else dflt
  }

  /** On a freshly built result the default is never used for a declared
      field: the answer is None. */
  lemma DeclaredFieldIgnoresDefault(name: string, dflt: Json)
    requires name in DeclaredFields()
    ensures SafeGetAttr(DefaultAttrs(), name, dflt) == Null
  {
  }

  /** `safe_get_attr(result, name, dflt) or dflt` */
  function AttrOr(attrs: map<string, Json>, name: string, dflt: Json): (r: Json)
    ensures Truthy(SafeGetAttr(attrs, name, dflt)) ==> r == SafeGetAttr(attrs, name, dflt)
    ensures !Truthy(SafeGetAttr(attrs, name, dflt)) ==> r == dflt
  {
    Or(SafeGetAttr(attrs, name, dflt), dflt)
  }

  // ---- _get_top_n_by_group ----

  /** A frame row: its text columns and its three measures. A row without
      the grouping column has a missing value there. */
  datatype Record = Record(cols: map<string, string>, target: int, est: int, ach: int)

  datatype Frame = Frame(columns: set<string>, rows: seq<Record>)

  /** One aggregated group: the sums of the three measures. */
  datatype GroupTotal = GroupTotal(group: string, target: int, est: int, ach: int)

  /** The distinct values of the grouping column (missing values are
      dropped by the grouping). */
  function GroupsOf(rows: seq<Record>, col: string): set<string> {
    set r | r in rows && col in r.cols :: r.cols[col]
  }

  function SumWhere(rows: seq<Record>, col: string, g: string, measure: Record -> int): int {
    if rows == [] then 0
    else (if col in rows[0].cols && rows[0].cols[col] == g then measure(rows[0]) else 0) + SumWhere(rows[1..], col, g, measure)
  }

  function TotalOf(rows: seq<Record>, col: string, g: string): GroupTotal {
    GroupTotal(g, SumWhere(rows, col, g, (r: Record) => r.target), SumWhere(rows, col, g, (r: Record) => r.est), SumWhere(rows, col, g, (r: Record) => r.ach))
  }

  /** The grouped totals, one per group, in ascending group order. */
  function Totals(rows: seq<Record>, col: string): (r: seq<GroupTotal>)
    ensures |r| == |GroupsOf(rows, col)|
    ensures forall i :: 0 <= i < |r| ==> r[i] == TotalOf(rows, col, SortedStrings(GroupsOf(rows, col))[i])
  {
    var gs := SortedStrings(GroupsOf(rows, col));
    seq(|gs|, i requires 0 <= i < |gs| => TotalOf(rows, col, gs[i]))
  }

  function ByAchievement(t: GroupTotal): SortKey {
    KeyOf(t.ach, t.target, t.est)
  }

  /** The groups ordered by (Ach asc, Target desc, Est asc). */
  function Ranked(rows: seq<Record>, col: string): seq<GroupTotal> {
    StableSort(Totals(rows, col), ByAchievement)
  }

  /** _get_top_n_by_group */
  function TopNByGroup(df: Frame, col: string, n: nat): seq<GroupTotal> {
    if df.rows == [] || df.columns == {} || col !in df.columns then []
    else
      var ranked := Ranked(df.rows, col);
      if |ranked| <= n then ranked else ranked[..n]
  }

  lemma TopNEmpty(df: Frame, col: string, n: nat)
    requires df.rows == [] || col !in df.columns
    ensures TopNByGroup(df, col, n) == []
  {
  }

  lemma RankedLength(rows: seq<Record>, col: string)
    ensures |Ranked(rows, col)| == |GroupsOf(rows, col)|
  {
    assert |multiset(Ranked(rows, col))| == |multiset(Totals(rows, col))|;
  }

  /** The top list is a prefix of the ranking. */
  lemma TopNPrefix(df: Frame, col: string, n: nat)
    requires df.rows != [] && col in df.columns
    ensures var r := TopNByGroup(df, col, n);
      |r| <= n && |r| <= |Ranked(df.rows, col)| && r == Ranked(df.rows, col)[..|r|]
  {
  }

  /** Every ranked entry is one group's totals. */
  lemma RankedAreTotals(rows: seq<Record>, col: string, t: GroupTotal)
    requires t in Ranked(rows, col)
    ensures t.group in GroupsOf(rows, col) && t == TotalOf(rows, col, t.group)
  {
    assert t in multiset(Ranked(rows, col));
    assert t in Totals(rows, col);
  }

  lemma {:induction false} CountAtMostOne<T>(s: seq<T>, x: T)
    requires forall i, j :: 0 <= i < j < |s| ==> s[i] != s[j]
    ensures multiset(s)[x] <= 1
    decreases |s|
  {
    if s != [] {
      assert s == [s[0]] + s[1..];
      CountAtMostOne(s[1..], x);
      if s[0] == x {
        assert x !in s[1..];
      }
    }
  }

  lemma CountTwo<T>(s: seq<T>, i: nat, j: nat)
    requires i < j < |s| && s[i] == s[j]
    ensures multiset(s)[s[i]] >= 2
  {
    assert s == s[..j] + s[j..];
    assert s[i] in s[..j];
    assert s[j..][0] == s[j];
  }

  /** One entry per group: no group appears twice in the ranking. */
  lemma RankedDistinct(rows: seq<Record>, col: string)
    ensures forall i, j :: 0 <= i < j < |Ranked(rows, col)| ==> Ranked(rows, col)[i].group != Ranked(rows, col)[j].group
  {
    var ranked := Ranked(rows, col);
    var totals := Totals(rows, col);
    var gs := SortedStrings(GroupsOf(rows, col));
    forall i, j | 0 <= i < j < |ranked| ensures ranked[i].group != ranked[j].group {
      if ranked[i].group == ranked[j].group {
        RankedAreTotals(rows, col, ranked[i]);
        RankedAreTotals(rows, col, ranked[j]);
        CountTwo(ranked, i, j);
        assert forall a, b :: 0 <= a < b < |totals| ==> totals[a] != totals[b] by {
          forall a, b | 0 <= a < b < |totals| ensures totals[a] != totals[b] {
            assert totals[a].group == gs[a] && totals[b].group == gs[b];
          }
        }
        CountAtMostOne(totals, ranked[i]);
        assert false;
      }
    }
  }

  /** At most n groups, each with its own sums, each group once, in
      ranking order. */
  lemma TopNShape(df: Frame, col: string, n: nat)
    ensures var r := TopNByGroup(df, col, n);
      |r| <= n
      && (forall t :: t in r ==> t.group in GroupsOf(df.rows, col) && t == TotalOf(df.rows, col, t.group))
      && (forall i, j :: 0 <= i < j < |r| ==> r[i].group != r[j].group)
      && SortedBy(r, ByAchievement)
  {
    if df.rows != [] && df.columns != {} && col in df.columns {
      var ranked := Ranked(df.rows, col);
      var r := TopNByGroup(df, col, n);
      TopNPrefix(df, col, n);
      RankedDistinct(df.rows, col);
      StableSortSorted(Totals(df.rows, col), ByAchievement);
      forall t | t in r ensures t.group in GroupsOf(df.rows, col) && t == TotalOf(df.rows, col, t.group) {
        RankedAreTotals(df.rows, col, t);
      }
    }
  }

  /** Every group left out ranks no better than every group kept. */
  lemma TopNKeepsBest(df: Frame, col: string, n: nat, t: GroupTotal, g: string)
    requires t in TopNByGroup(df, col, n)
    requires g in GroupsOf(df.rows, col) && TotalOf(df.rows, col, g) !in TopNByGroup(df, col, n)
    ensures KeyLe(ByAchievement(t), ByAchievement(TotalOf(df.rows, col, g)))
  {
    var ranked := Ranked(df.rows, col);
    var totals := Totals(df.rows, col);
    var r := TopNByGroup(df, col, n);
    TopNPrefix(df, col, n);
    StableSortSorted(totals, ByAchievement);
    var gs := SortedStrings(GroupsOf(df.rows, col));
    var k :| 0 <= k < |gs| && gs[k] == g;
    assert totals[k] == TotalOf(df.rows, col, g);
    assert TotalOf(df.rows, col, g) in multiset(ranked);
    var j :| 0 <= j < |ranked| && ranked[j] == TotalOf(df.rows, col, g);
    var i :| 0 <= i < |r| && r[i] == t;
    PrefixBeforeRest(ranked, r, i, j);
  }

  /** In a sequence cut after its prefix r, an element outside r comes after
      every element of r. */
  lemma PrefixBeforeRest<T>(s: seq<T>, r: seq<T>, i: nat, j: nat)
    requires |r| <= |s| && r == s[..|r|] && i < |r| && j < |s| && s[j] !in r
    ensures s[i] == r[i] && i < j
  {
  }

  /** With room for every group, every group is listed. */
  lemma TopNComplete(df: Frame, col: string, n: nat, g: string)
    requires df.rows != [] && col in df.columns
    requires n >= |GroupsOf(df.rows, col)| && g in GroupsOf(df.rows, col)
    ensures TotalOf(df.rows, col, g) in TopNByGroup(df, col, n)
  {
    RankedLength(df.rows, col);
    var totals := Totals(df.rows, col);
    var gs := SortedStrings(GroupsOf(df.rows, col));
    var k :| 0 <= k < |gs| && gs[k] == g;
    assert totals[k] == TotalOf(df.rows, col, g);
    assert TotalOf(df.rows, col, g) in multiset(Ranked(df.rows, col));
  }

  // ---- get_account_list ----

  /** A value that can sit in a Python set: not a list and not a dict. */
  predicate Hashable(v: Json) {
    !v.List? && !v.Object?
  }

  /** (acc["account_cd"], acc["account_nm"]) */
  function AccountPair(acc: Json): Result<(Json, Json)> {
    if !acc.Object? then Err("TypeError")
    else if "account_cd" !in acc.fields || "account_nm" !in acc.fields then Err("KeyError")
    else
      var cd := acc.fields["account_cd"];
      var nm := acc.fields["account_nm"];
      if Hashable(cd) && Hashable(nm) then Ok((cd, nm)) else Err("TypeError")
  }

  /** item.get("accounts", []), iterated only when truthy. */
  function ItemAccounts(item: Json): Result<seq<Json>> {
    if !item.Object? then Err("AttributeError")
    else
      var accounts := Get(item.fields, "accounts", EmptyList);
      if !Truthy(accounts) then Ok([])
      else if accounts.List? then Ok(accounts.items)
      else Err("TypeError")
  }

  /** The pairs of a sequence of accounts; the first bad account raises. */
  function PairsOf(accs: seq<Json>): Result<set<(Json, Json)>> {
    if accs == [] then Ok({})
    else match PairsOf(accs[..|accs| - 1])
      case Err(e) => Err(e)
      case Ok(found) =>
        match AccountPair(accs[|accs| - 1])
        case Err(e) => Err(e)
        case Ok(p) => Ok(found + {p})
  }

  /** The account set over all items. */
  function AccountPairs(items: seq<Json>): Result<set<(Json, Json)>> {
    if items == [] then Ok({})
    else match AccountPairs(items[..|items| - 1])
      case Err(e) => Err(e)
      case Ok(found) =>
        match ItemAccounts(items[|items| - 1])
        case Err(e) => Err(e)
        case Ok(accs) =>
          match PairsOf(accs)
          case Err(e) => Err(e)
          case Ok(more) => Ok(found + more)
  }

  lemma {:induction false} PairsOfErrSticks(accs: seq<Json>, k: nat)
    requires k <= |accs| && PairsOf(accs[..k]).Err?
    ensures PairsOf(accs) == PairsOf(accs[..k])
    decreases |accs| - k
  {
    if k < |accs| {
      assert accs[..k + 1][..k] == accs[..k];
      PairsOfErrSticks(accs, k + 1);
    } else {
      assert accs[..k] == accs;
    }
  }

  lemma {:induction false} AccountPairsErrSticks(items: seq<Json>, k: nat)
    requires k <= |items| && AccountPairs(items[..k]).Err?
    ensures AccountPairs(items) == AccountPairs(items[..k])
    decreases |items| - k
  {
    if k < |items| {
      assert items[..k + 1][..k] == items[..k];
      AccountPairsErrSticks(items, k + 1);
    } else {
      assert items[..k] == items;
    }
  }

  /** A bad account anywhere makes the whole collection fail; otherwise
      the set holds exactly the pairs of the accounts. */
  lemma {:induction false} PairsOfExactly(accs: seq<Json>)
    ensures PairsOf(accs).Ok? <==> forall a :: a in accs ==> AccountPair(a).Ok?
    ensures PairsOf(accs).Ok? ==>
      forall p :: p in PairsOf(accs).value <==> exists a :: a in accs && AccountPair(a) == Ok(p)
  {
    if accs != [] {
      var init := accs[..|accs| - 1];
      var last := accs[|accs| - 1];
      assert accs == init + [last];
      PairsOfExactly(init);
    }
  }

  /** The account set holds exactly the pairs of every item's accounts. */
  lemma {:induction false} AccountPairsExactly(items: seq<Json>, p: (Json, Json))
    requires AccountPairs(items).Ok?
    ensures p in AccountPairs(items).value <==>
      exists i, a :: 0 <= i < |items| && ItemAccounts(items[i]).Ok? && a in ItemAccounts(items[i]).value && AccountPair(a) == Ok(p)
  {
    if items != [] {
      var init := items[..|items| - 1];
      var last := items[|items| - 1];
      AccountPairsExactly(init, p);
      PairsOfExactly(ItemAccounts(last).value);
      if p in AccountPairs(items).value {
        if p !in AccountPairs(init).value {
          var a :| a in ItemAccounts(last).value && AccountPair(a) == Ok(p);
          assert items[|items| - 1] == last;
        } else {
          var i, a :| 0 <= i < |init| && ItemAccounts(init[i]).Ok? && a in ItemAccounts(init[i]).value && AccountPair(a) == Ok(p);
          assert items[i] == init[i];
        }
      } else {
        forall i, a | 0 <= i < |items| && ItemAccounts(items[i]).Ok? && a in ItemAccounts(items[i]).value
          ensures AccountPair(a) != Ok(p)
        {
          if i < |init| {
            assert items[i] == init[i];
          }
        }
      }
    }
  }

  /** The loops of get_account_list: each item's accounts added to the set. */
  method CollectAccounts(items: seq<Json>) returns (r: Result<set<(Json, Json)>>)
    ensures r == AccountPairs(items)
  {
    var acc: set<(Json, Json)> := {};
    var i := 0;
    while i < |items|
      invariant 0 <= i <= |items|
      invariant AccountPairs(items[..i]) == Ok(acc)
    {
      assert items[..i + 1][..i] == items[..i];
      var accounts := ItemAccounts(items[i]);
      if accounts.Err? {
        AccountPairsErrSticks(items, i + 1);
        return Err(accounts.error);
      }
      var accs := accounts.value;
      var found: set<(Json, Json)> := {};
      var j := 0;
      while j < |accs|
        invariant 0 <= j <= |accs|
        invariant PairsOf(accs[..j]) == Ok(found)
      {
        assert accs[..j + 1][..j] == accs[..j];
        var pair := AccountPair(accs[j]);
        if pair.Err? {
          PairsOfErrSticks(accs, j + 1);
          AccountPairsErrSticks(items, i + 1);
          return Err(pair.error);
        }
        found := found + {pair.value};
        j := j + 1;
      }
      assert accs[..j] == accs;
      acc := acc + found;
      i := i + 1;
    }
    assert items[..i] == items;
    r := Ok(acc);
  }

  /** {"account_cd": cd, "account_nm": nm} */
  function AccountRecord(p: (Json, Json)): Json {
    Object(map["account_cd" := p.0, "account_nm" := p.1])
  }

  lemma AccountRecordInjective(p: (Json, Json), q: (Json, Json))
    requires AccountRecord(p) == AccountRecord(q)
    ensures p == q
  {
    assert AccountRecord(p).fields["account_cd"] == p.0;
    assert AccountRecord(q).fields["account_cd"] == q.0;
    assert AccountRecord(p).fields["account_nm"] == p.1;
    assert AccountRecord(q).fields["account_nm"] == q.1;
  }

  /** The list holds one record per pair and nothing else. */
  ghost predicate ListsExactly(xs: seq<Json>, pairs: set<(Json, Json)>) {
    |xs| == |pairs|
    && (forall p :: p in pairs <==> AccountRecord(p) in xs)
    && (forall i, j :: 0 <= i < j < |xs| ==> xs[i] != xs[j])
  }

  /** The list comprehension over the set, in the set's own order. */
  method AccountRecords(pairs: set<(Json, Json)>) returns (xs: seq<Json>)
    ensures ListsExactly(xs, pairs)
    ensures forall x :: x in xs ==> exists p :: p in pairs && x == AccountRecord(p)
  {
    xs := [];
    var rest := pairs;
    while rest != {}
      invariant rest <= pairs
      invariant |xs| + |rest| == |pairs|
      invariant forall p :: p in pairs - rest <==> AccountRecord(p) in xs
      invariant forall x :: x in xs ==> exists p :: p in pairs - rest && x == AccountRecord(p)
      invariant forall i, j :: 0 <= i < j < |xs| ==> xs[i] != xs[j]
      decreases |rest|
    {
      var p :| p in rest;
      assert AccountRecord(p) !in xs;
      forall q | AccountRecord(q) == AccountRecord(p) ensures q == p {
        AccountRecordInjective(q, p);
      }
      xs := xs + [AccountRecord(p)];
      rest := rest - {p};
    }
  }

  /** The account set of user_info's sold-to list (which must be a list). */
  function SoldToPairs(soldTo: Json): Result<set<(Json, Json)>> {
    if soldTo.List? then AccountPairs(soldTo.items) else Err("TypeError")
  }

  /** The try block of get_account_list: account_list becomes the distinct
      pairs, or [] when anything raised. */
  method SetAccountList(sr: ScenarioResult, soldTo: Json)
    modifies sr
    ensures sr.attrs.Keys == old(sr.attrs).Keys + {"account_list"}
    ensures forall k :: k in old(sr.attrs) && k != "account_list" ==> sr.attrs[k] == old(sr.attrs)[k]
    ensures SoldToPairs(soldTo).Err? ==> sr.attrs["account_list"] == EmptyList
    ensures SoldToPairs(soldTo).Ok? ==>
      sr.attrs["account_list"].List? && ListsExactly(sr.attrs["account_list"].items, SoldToPairs(soldTo).value)
    ensures sr.executionId == old(sr.executionId) && sr.senderName == old(sr.senderName)
    ensures sr.userId == old(sr.userId) && sr.chatroomId == old(sr.chatroomId)
  {
    var pairs: Result<set<(Json, Json)>>;
    if soldTo.List? {
      pairs := CollectAccounts(soldTo.items);
    } else {
      pairs := Err("TypeError");
    }
    if pairs.Ok? {
      var records := AccountRecords(pairs.value);
      sr.SetAttr("account_list", List(records));
    } else {
      sr.SetAttr("account_list", EmptyList);
    }
  }

  /** get_account_list: account_list becomes the distinct pairs (or [] when
      anything raised); then CUR is set to the user's currency, outside the
      try, so a user_info without user_currency (None here) raises an
      AttributeError after account_list is written. */
  method GetAccountList(sr: ScenarioResult, soldTo: Json, userCurrency: Option<Json>) returns (r: Result<()>)
    modifies sr
    ensures r.Err? <==> userCurrency.None?
    ensures r.Err? ==> r.error == "AttributeError"
    ensures sr.attrs.Keys == old(sr.attrs).Keys + {"account_list"} + (if userCurrency.Some? then {"CUR"} else {})
    ensures forall k :: k in old(sr.attrs) && k != "account_list" && k != "CUR" ==> sr.attrs[k] == old(sr.attrs)[k]
    ensures userCurrency.Some? ==> sr.attrs["CUR"] == userCurrency.value
    ensures userCurrency.None? && "CUR" in old(sr.attrs) ==> sr.attrs["CUR"] == old(sr.attrs)["CUR"]
    ensures SoldToPairs(soldTo).Err? ==> sr.attrs["account_list"] == EmptyList
    ensures SoldToPairs(soldTo).Ok? ==>
      sr.attrs["account_list"].List? && ListsExactly(sr.attrs["account_list"].items, SoldToPairs(soldTo).value)
    ensures sr.executionId == old(sr.executionId) && sr.senderName == old(sr.senderName)
    ensures sr.userId == old(sr.userId) && sr.chatroomId == old(sr.chatroomId)
  {
    SetAccountList(sr, soldTo);
    if userCurrency.None? {
      r := Err("AttributeError");
    } else {
      sr.SetAttr("CUR", userCurrency.value);
      r := Ok(());
    }
  }

  // ---- fetch_operational_issues ----

  const ISSUE_KEYS: seq<string> := ["cnt_cred_block", "cnt_del_block", "cnt_unconf_delay", "cnt_do_delay", "cnt_incomplete"]

  /** d.get(key, 0) */
  function CountOf(d: map<string, int>, key: string): int {
    if key in d then d[key] else 0
  }

  ghost function Pick(keys: set<string>): string
    requires keys != {}
  {
    var k :| k in keys; k
  }

  /** The sum of one count over the entries named by keys, in any order. */
  ghost function IssueTotal(counts: map<string, map<string, int>>, keys: set<string>, key: string): int
    requires keys <= counts.Keys
    decreases keys
  {
    if keys == {} then 0
    else
      var k := Pick(keys);
      CountOf(counts[k], key) + IssueTotal(counts, keys - {k}, key)
  }

  /** The sum does not depend on the order the entries are visited in. */
  lemma {:induction false} IssueTotalRemove(counts: map<string, map<string, int>>, keys: set<string>, k: string, key: string)
    requires keys <= counts.Keys && k in keys
    ensures IssueTotal(counts, keys, key) == CountOf(counts[k], key) + IssueTotal(counts, keys - {k}, key)
    decreases keys
  {
    var j := Pick(keys);
    if j != k {
      IssueTotalRemove(counts, keys - {j}, k, key);
      IssueTotalRemove(counts, keys - {k}, j, key);
      assert keys - {j} - {k} == keys - {k} - {j};
    }
  }

  /** An entry lacking the key counts zero: with the key missing
      everywhere the total is zero. */
  lemma {:induction false} MissingKeyCountsZero(counts: map<string, map<string, int>>, keys: set<string>, key: string)
    requires keys <= counts.Keys
    requires forall k :: k in keys ==> key !in counts[k]
    ensures IssueTotal(counts, keys, key) == 0
    decreases keys
  {
    if keys != {} {
      MissingKeyCountsZero(counts, keys - {Pick(keys)}, key);
    }
  }

  /** A new entry adds its own count to the total. */
  lemma {:induction false} IssueTotalAdd(counts: map<string, map<string, int>>, k: string, d: map<string, int>, key: string)
    requires k !in counts
    ensures IssueTotal(counts[k := d], counts.Keys + {k}, key) == IssueTotal(counts, counts.Keys, key) + CountOf(d, key)
  {
    IssueTotalRemove(counts[k := d], counts.Keys + {k}, k, key);
    assert counts.Keys + {k} - {k} == counts.Keys;
    IssueTotalFrame(counts, counts[k := d], counts.Keys, key);
  }

  lemma {:induction false} IssueTotalFrame(a: map<string, map<string, int>>, b: map<string, map<string, int>>, keys: set<string>, key: string)
    requires keys <= a.Keys && keys <= b.Keys
    requires forall k :: k in keys ==> a[k] == b[k]
    ensures IssueTotal(a, keys, key) == IssueTotal(b, keys, key)
    decreases keys
  {
    if keys != {} {
      IssueTotalFrame(a, b, keys - {Pick(keys)}, key);
    }
  }

  /** sum(d.get(key, 0) for d in counts.values()) */
  method SumIssue(counts: map<string, map<string, int>>, key: string) returns (total: int)
    ensures total == IssueTotal(counts, counts.Keys, key)
  {
    total := 0;
    var rest := counts.Keys;
    while rest != {}
      invariant rest <= counts.Keys
      invariant total + IssueTotal(counts, rest, key) == IssueTotal(counts, counts.Keys, key)
      decreases |rest|
    {
      var k :| k in rest;
      IssueTotalRemove(counts, rest, k, key);
      total := total + CountOf(counts[k], key);
      rest := rest - {k};
    }
  }

  /** The five totals as attributes. */
  ghost function IssueAttrs(counts: map<string, map<string, int>>, keys: seq<string>): map<string, Json> {
    map k | k in keys :: Int(IssueTotal(counts, counts.Keys, k))
  }

  lemma IssueAttrsSnoc(counts: map<string, map<string, int>>, keys: seq<string>, k: string)
    ensures IssueAttrs(counts, keys + [k]) == IssueAttrs(counts, keys)[k := Int(IssueTotal(counts, counts.Keys, k))]
  {
  }

  lemma UnionUpdate(a: map<string, Json>, b: map<string, Json>, k: string, v: Json)
    ensures (a + b)[k := v] == a + b[k := v]
  {
  }

  /** The failure branch: every count set to None. */
  method ClearIssues(sr: ScenarioResult)
    modifies sr
    ensures sr.attrs == old(sr.attrs) + map k | k in ISSUE_KEYS :: Null
    ensures sr.executionId == old(sr.executionId) && sr.senderName == old(sr.senderName)
    ensures sr.userId == old(sr.userId) && sr.chatroomId == old(sr.chatroomId)
  {
    var i := 0;
    while i < |ISSUE_KEYS|
      invariant 0 <= i <= |ISSUE_KEYS|
      invariant sr.attrs == old(sr.attrs) + map k | k in ISSUE_KEYS[..i] :: Null
      invariant sr.executionId == old(sr.executionId) && sr.senderName == old(sr.senderName)
      invariant sr.userId == old(sr.userId) && sr.chatroomId == old(sr.chatroomId)
    {
      sr.SetAttr(ISSUE_KEYS[i], Null);
      assert ISSUE_KEYS[..i + 1] == ISSUE_KEYS[..i] + [ISSUE_KEYS[i]];
      i := i + 1;
    }
    assert ISSUE_KEYS[..i] == ISSUE_KEYS;
  }

  /** The success branch: each count set to its total. */
  method StoreIssueTotals(sr: ScenarioResult, counts: map<string, map<string, int>>)
    modifies sr
    ensures sr.attrs == old(sr.attrs) + IssueAttrs(counts, ISSUE_KEYS)
    ensures sr.executionId == old(sr.executionId) && sr.senderName == old(sr.senderName)
    ensures sr.userId == old(sr.userId) && sr.chatroomId == old(sr.chatroomId)
  {
    var i := 0;
    while i < |ISSUE_KEYS|
      invariant 0 <= i <= |ISSUE_KEYS|
      invariant sr.attrs == old(sr.attrs) + IssueAttrs(counts, ISSUE_KEYS[..i])
      invariant sr.executionId == old(sr.executionId) && sr.senderName == old(sr.senderName)
      invariant sr.userId == old(sr.userId) && sr.chatroomId == old(sr.chatroomId)
    {
      var total := SumIssue(counts, ISSUE_KEYS[i]);
      ghost var before := sr.attrs;
      sr.SetAttr(ISSUE_KEYS[i], Int(total));
      assert ISSUE_KEYS[..i + 1] == ISSUE_KEYS[..i] + [ISSUE_KEYS[i]];
      IssueAttrsSnoc(counts, ISSUE_KEYS[..i], ISSUE_KEYS[i]);
      UnionUpdate(old(sr.attrs), IssueAttrs(counts, ISSUE_KEYS[..i]), ISSUE_KEYS[i], Int(total));
      i := i + 1;
    }
    assert ISSUE_KEYS[..i] == ISSUE_KEYS;
  }

  /** One count as sum() adds it: an integer, or a boolean as 0 or 1;
      anything else makes the addition raise a TypeError. */
  function CountValue(v: Json): Option<int> {
    match v
    case Int(n) => Some(n)
    case Bool(b) => Some(if b then 1 else 0)
    case _ => None
  }

  /** An entry of the batched reply that the five sums accept: a dict whose
      five counts, where present, are numbers. */
  predicate CountableEntry(v: Json) {
    v.Object? && forall key :: key in ISSUE_KEYS && key in v.fields ==> CountValue(v.fields[key]).Some?
  }

  /** The entry's five counts, where present. */
  function EntryCounts(v: Json): (d: map<string, int>)
    requires CountableEntry(v)
    ensures forall key :: key in ISSUE_KEYS ==> CountOf(d, key) == (if key in v.fields then CountValue(v.fields[key]).value else 0)
  {
    map key | key in ISSUE_KEYS && key in v.fields :: CountValue(v.fields[key]).value
  }

  /** What the aggregation makes of `reply or {}`: the counts per entry, or
      None when one of the sums raises (the value is not a dict, an entry is
      not a dict, or a count is not a number). */
  function IssueCounts(reply: Json): (r: Option<map<string, map<string, int>>>)
    ensures r.Some? <==> reply.Object? && forall k :: k in reply.fields ==> CountableEntry(reply.fields[k])
    ensures r.Some? ==>
      (&& r.value.Keys == reply.fields.Keys
       && forall k :: k in reply.fields ==> r.value[k] == EntryCounts(reply.fields[k]))
  {
    if reply.Object? && forall k :: k in reply.fields ==> CountableEntry(reply.fields[k]) then
      Some(map k | k in reply.fields :: EntryCounts(reply.fields[k]))
    else None
  }

  /** A call that raised, or a falsy reply, reads as {} and every total is 0. */
  lemma FailedCallCountsZero(reply: Option<Json>)
    requires reply.None? || !Truthy(reply.value)
    ensures IssueCounts(Or(reply.GetOr(Null), EmptyObject)) == Some(map[])
  {
  }

  /** A non-empty list, a non-zero number or a non-empty string as the reply
      has no .values(): the aggregation raises. */
  lemma NonDictReplyFails(reply: Json)
    requires Truthy(reply) && !reply.Object?
    ensures IssueCounts(Or(reply, EmptyObject)).None?
  {
  }

  /** One entry whose count is not a number (None or a string) makes the
      sums raise, whatever the other entries hold. */
  lemma BadCountFails(reply: map<string, Json>, k: string, key: string)
    requires k in reply && reply[k].Object? && key in ISSUE_KEYS && key in reply[k].fields
    requires reply[k].fields[key].Null? || reply[k].fields[key].Str?
    ensures IssueCounts(Object(reply)).None?
  {
  }

  /** fetch_operational_issues. `today` is the local date when the
      preparation (account codes, local time) succeeded and None when it
      raised; `reply` is the batched call's answer, None when it raised. */
  method FetchOperationalIssues(sr: ScenarioResult, today: Option<string>, reply: Option<Json>)
    modifies sr
    ensures today.None? ==> sr.attrs == old(sr.attrs) + map k | k in ISSUE_KEYS :: Null
    ensures today.Some? ==>
      var counts := IssueCounts(Or(reply.GetOr(Null), EmptyObject));
      var cleared := old(sr.attrs)["today_date" := Str(today.value)];
      && (counts.None? ==> sr.attrs == cleared + map k | k in ISSUE_KEYS :: Null)
      && (counts.Some? ==> sr.attrs == cleared + IssueAttrs(counts.value, ISSUE_KEYS))
    ensures sr.executionId == old(sr.executionId) && sr.senderName == old(sr.senderName)
    ensures sr.userId == old(sr.userId) && sr.chatroomId == old(sr.chatroomId)
  {
    if today.None? {
      ClearIssues(sr);
    } else {
      sr.SetAttr("today_date", Str(today.value));
      var counts := IssueCounts(Or(reply.GetOr(Null), EmptyObject));
      if counts.None? {
        ClearIssues(sr);
      } else {
        StoreIssueTotals(sr, counts.value);
      }
    }
  }

  // ---- convert_models_to_order_details ----

  const ACCOUNT_MODELS := "_account_top1_prdg_top5_model"
  const PRDG_MODELS := "_prdg_top1_prd_top5_model"
  const ACCOUNT_MODEL_ORDERS := "_account_top1_prdg_top5_model_order"
  const PRDG_MODEL_ORDERS := "_prdg_top1_prd_top5_model_order"

  /** The ten model lists in the order they are gathered: top1..5 of the
      accounts, then top1..5 of the product groups. */
  function SourceAttrs(): seq<string> {
    seq(5, i requires 0 <= i < 5 => Indexed(i + 1, ACCOUNT_MODELS)) + seq(5, i requires 0 <= i < 5 => Indexed(i + 1, PRDG_MODELS))
  }

  /** The ten model lists in the order they are converted: for each i,
      the account list then the product-group list. */
  function StepAttrs(): seq<string> {
    seq(10, k requires 0 <= k < 10 => Indexed(k / 2 + 1, if k % 2 == 0 then ACCOUNT_MODELS else PRDG_MODELS))
  }

  /** The converted list's attribute: the model list's name plus "_order". */
  function OrderAttr(models: string): string {
    models + "_order"
  }

  /** The ten names the defaults loop makes sure of. */
  function OrderAttrs(): seq<string> {
    seq(10, k requires 0 <= k < 10 => Indexed(k / 2 + 1, if k % 2 == 0 then ACCOUNT_MODEL_ORDERS else PRDG_MODEL_ORDERS))
  }

  /** The conversion loop writes exactly the names the defaults loop
      checks, in the same order. */
  lemma StepsWriteOrderAttrs(k: nat)
    requires k < 10
    ensures OrderAttr(StepAttrs()[k]) == OrderAttrs()[k]
  {
  }

  /** Iterating safe_get_attr(result, name, []): a list gives its items;
      an empty string or dict gives nothing; anything else (None included)
      raises. */
  function ModelsOf(attrs: map<string, Json>, name: string): (r: Result<seq<Json>>)
    ensures SafeGetAttr(attrs, name, EmptyList).List? ==> r == Ok(SafeGetAttr(attrs, name, EmptyList).items)
    ensures SafeGetAttr(attrs, name, EmptyList) == Null ==> r.Err?
  {
    var v := SafeGetAttr(attrs, name, EmptyList);
    if v.List? then Ok(v.items)
    else if v == Str("") || v == EmptyObject then Ok([])
    else Err("TypeError")
  }

  /** str(model.get("Material", "")).strip(); a model that is not a dict
      has no get. */
  function MaterialOf(model: Json): Result<string> {
    if !model.Object? then Err("AttributeError")
    else Ok(Strip(PyStr(Get(model.fields, "Material", Str("")))))
  }

  /** The non-empty material codes of a list of models, in order. */
  function NamedMaterials(models: seq<Json>): (r: Result<seq<string>>)
    ensures r.Ok? ==> forall i :: 0 <= i < |r.value| ==> r.value[i] != ""
    decreases |models|
  {
    if models == [] then Ok([])
    else match NamedMaterials(models[..|models| - 1])
      case Err(e) => Err(e)
      case Ok(names) =>
        match MaterialOf(models[|models| - 1])
        case Err(e) => Err(e)
        case Ok(m) => Ok(if m != "" then names + [m] else names)
  }

  /** all_materials: the set of material codes over the named lists. */
  function Materials(attrs: map<string, Json>, names: seq<string>): Result<set<string>>
    decreases |names|
  {
    if names == [] then Ok({})
    else match Materials(attrs, names[..|names| - 1])
      case Err(e) => Err(e)
      case Ok(found) =>
        match ModelsOf(attrs, names[|names| - 1])
        case Err(e) => Err(e)
        case Ok(models) =>
          match NamedMaterials(models)
          case Err(e) => Err(e)
          case Ok(ms) => Ok(found + set m | m in ms)
  }

  /** The five batched answers, each already `or {}`-defaulted. */
  datatype Replies = Replies(billed: map<string, Json>, open: map<string, Json>, blocked: map<string, Json>,
                             upcoming: map<string, Json>, issues: map<string, Json>)

  /** The issue row of a material the issue answer does not mention. */
  function NoIssues(mat: string): Json {
    List([Str(mat), Int(0), Int(0), Int(0), Int(0), Int(0)])
  }

  /** Cells 1..5 of an issue row: a list is indexed, a string gives its
      characters; anything else, or a row shorter than six, raises. */
  function IssueCells(row: Json): Option<seq<Json>> {
    if row.List? && |row.items| >= 6 then Some(row.items[1..6])
    else if row.Str? && |row.s| >= 6 then Some(seq(5, i requires 0 <= i < 5 => Str([row.s[i + 1]])))
    else None
  }

  function DetailRecord(mat: string, rep: Replies, c: seq<Json>): map<string, Json>
    requires |c| == 5
  {
    map[
      "Material" := Str(mat),
      "billed_order" := Get(rep.billed, mat, Null), "open_order" := Get(rep.open, mat, Null),
      "blocked_order" := Get(rep.blocked, mat, Null), "upcoming_order" := Get(rep.upcoming, mat, Null),
      "cnt_cred_block" := c[0], "cnt_del_block" := c[1], "cnt_unconf_delay" := c[2],
      "cnt_do_delay" := c[3], "cnt_incomplete" := c[4]]
  }

  /** The order-detail record of one material. */
  function DetailOf(mat: string, rep: Replies): Result<Json> {
    match IssueCells(Get(rep.issues, mat, NoIssues(mat)))
    case None => Err("IndexError")
    case Some(c) => Ok(Object(DetailRecord(mat, rep, c)))
  }

  /** The order details of a model list, models with an empty material
      code skipped. */
  function DetailsOf(models: seq<Json>, rep: Replies): Result<seq<Json>>
    decreases |models|
  {
    if models == [] then Ok([])
    else match DetailsOf(models[..|models| - 1], rep)
      case Err(e) => Err(e)
      case Ok(ds) =>
        match MaterialOf(models[|models| - 1])
        case Err(e) => Err(e)
        case Ok(m) =>
          if m == "" then Ok(ds)
          else match DetailOf(m, rep)
            case Err(e) => Err(e)
            case Ok(d) => Ok(ds + [d])
  }

  /** The conversion loop: each list's details stored under its "_order"
      name; the first failure ends the loop with the earlier lists kept. */
  function ApplySteps(attrs: map<string, Json>, rep: Replies, steps: seq<string>): map<string, Json>
    decreases |steps|
  {
    if steps == [] then attrs
    else match ModelsOf(attrs, steps[0])
      case Err(_) => attrs
      case Ok(models) =>
        match DetailsOf(models, rep)
        case Err(_) => attrs
        case Ok(ds) => ApplySteps(attrs[OrderAttr(steps[0]) := List(ds)], rep, steps[1..])
  }

  /** The ensure-defaults loop: each missing name set to []. */
  function ApplyDefaults(attrs: map<string, Json>, names: seq<string>): map<string, Json>
    decreases |names|
  {
    if names == [] then attrs
    else
      var a := ApplyDefaults(attrs, names[..|names| - 1]);
      var n := names[|names| - 1];
      if n in a then a else a[n := EmptyList]
  }

  /** The defaults loop adds exactly the missing names, as [], and
      changes nothing else. */
  lemma {:induction false} DefaultsAddMissing(attrs: map<string, Json>, names: seq<string>)
    ensures ApplyDefaults(attrs, names).Keys == attrs.Keys + set n | n in names
    ensures forall k :: k in attrs ==> ApplyDefaults(attrs, names)[k] == attrs[k]
    ensures forall k :: k in ApplyDefaults(attrs, names) && k !in attrs ==> ApplyDefaults(attrs, names)[k] == EmptyList
    decreases |names|
  {
    if names != [] {
      var init := names[..|names| - 1];
      DefaultsAddMissing(attrs, init);
      assert names == init + [names[|names| - 1]];
      assert (set n | n in names) == (set n | n in init) + {names[|names| - 1]};
    }
  }

  /** convert_models_to_order_details: `dated` says whether local_time
      holds a date (the month bounds come from it). Nothing changes when
      no model has a material; otherwise the loop, then the defaults. */
  function ConvertAttrs(attrs: map<string, Json>, dated: bool, rep: Replies): map<string, Json> {
    if !dated then ApplyDefaults(attrs, OrderAttrs())
    else match Materials(attrs, SourceAttrs())
      case Err(_) => ApplyDefaults(attrs, OrderAttrs())
      case Ok(mats) =>
        if mats == {} then attrs
        else ApplyDefaults(ApplySteps(attrs, rep, StepAttrs()), OrderAttrs())
  }

  method ConvertSteps(sr: ScenarioResult, rep: Replies)
    modifies sr
    ensures sr.attrs == ApplySteps(old(sr.attrs), rep, StepAttrs())
    ensures sr.executionId == old(sr.executionId) && sr.senderName == old(sr.senderName)
    ensures sr.userId == old(sr.userId) && sr.chatroomId == old(sr.chatroomId)
  {
    var steps := StepAttrs();
    var i := 0;
    while i < |steps|
      invariant 0 <= i <= |steps|
      invariant ApplySteps(old(sr.attrs), rep, steps) == ApplySteps(sr.attrs, rep, steps[i..])
      invariant sr.executionId == old(sr.executionId) && sr.senderName == old(sr.senderName)
      invariant sr.userId == old(sr.userId) && sr.chatroomId == old(sr.chatroomId)
    {
      var models := ModelsOf(sr.attrs, steps[i]);
      if models.Err? {
        return;
      }
      var details := DetailsOf(models.value, rep);
      if details.Err? {
        return;
      }
      assert steps[i..][1..] == steps[i + 1..];
      sr.SetAttr(OrderAttr(steps[i]), List(details.value));
      i := i + 1;
    }
  }

  method FillDefaults(sr: ScenarioResult, names: seq<string>)
    modifies sr
    ensures sr.attrs == ApplyDefaults(old(sr.attrs), names)
    ensures sr.executionId == old(sr.executionId) && sr.senderName == old(sr.senderName)
    ensures sr.userId == old(sr.userId) && sr.chatroomId == old(sr.chatroomId)
  {
    var j := 0;
    while j < |names|
      invariant 0 <= j <= |names|
      invariant sr.attrs == ApplyDefaults(old(sr.attrs), names[..j])
      invariant sr.executionId == old(sr.executionId) && sr.senderName == old(sr.senderName)
      invariant sr.userId == old(sr.userId) && sr.chatroomId == old(sr.chatroomId)
    {
      assert names[..j + 1][..j] == names[..j];
      if names[j] !in sr.attrs {
        sr.SetAttr(names[j], EmptyList);
      }
      j := j + 1;
    }
    assert names[..j] == names;
  }

  method ConvertModelsToOrderDetails(sr: ScenarioResult, dated: bool, billed: Result<map<string, Json>>,
                                     open: Result<map<string, Json>>, blocked: Result<map<string, Json>>,
                                     upcoming: Result<map<string, Json>>, issues: Result<map<string, Json>>)
    modifies sr
    ensures sr.attrs == ConvertAttrs(old(sr.attrs), dated, Replies(OrEmpty(SafeDbCall(billed)), OrEmpty(SafeDbCall(open)),
      OrEmpty(SafeDbCall(blocked)), OrEmpty(SafeDbCall(upcoming)), OrEmpty(SafeDbCall(issues))))
    ensures sr.executionId == old(sr.executionId) && sr.senderName == old(sr.senderName)
    ensures sr.userId == old(sr.userId) && sr.chatroomId == old(sr.chatroomId)
  {
    var rep := Replies(OrEmpty(SafeDbCall(billed)), OrEmpty(SafeDbCall(open)),
      OrEmpty(SafeDbCall(blocked)), OrEmpty(SafeDbCall(upcoming)), OrEmpty(SafeDbCall(issues)));
    if dated {
      var mats := Materials(sr.attrs, SourceAttrs());
      if mats.Ok? && mats.value == {} {
        return;
      }
      if mats.Ok? {
        ConvertSteps(sr, rep);
      }
    }
    FillDefaults(sr, OrderAttrs());
  }

  /** With no material anywhere the result is left exactly as it was,
      whatever the database would have answered. */
  lemma NoMaterialsNoChange(attrs: map<string, Json>, rep: Replies)
    requires Materials(attrs, SourceAttrs()) == Ok({})
    ensures ConvertAttrs(attrs, true, rep) == attrs
  {
  }

  /** A material missing from the issue answer gets zero counts and the
      order amounts the four answers give for it (None when absent). */
  lemma MissingIssuesCountZero(mat: string, rep: Replies)
    requires mat !in rep.issues
    ensures DetailOf(mat, rep).Ok?
    ensures var d := DetailOf(mat, rep).value.fields;
      d.Keys == {"Material", "billed_order", "open_order", "blocked_order", "upcoming_order",
                 "cnt_cred_block", "cnt_del_block", "cnt_unconf_delay", "cnt_do_delay", "cnt_incomplete"}
      && d["Material"] == Str(mat) && d["billed_order"] == Get(rep.billed, mat, Null)
      && d["cnt_cred_block"] == Int(0) && d["cnt_del_block"] == Int(0)
      && d["cnt_unconf_delay"] == Int(0) && d["cnt_do_delay"] == Int(0) && d["cnt_incomplete"] == Int(0)
  {
    var c := [Int(0), Int(0), Int(0), Int(0), Int(0)];
    assert NoIssues(mat).items[1..6] == c;
    assert DetailOf(mat, rep) == Ok(Object(DetailRecord(mat, rep, c)));
    DetailRecordShape(mat, rep, c);
  }

  /** The ten fields of a detail record and the first and the five counted ones. */
  lemma DetailRecordShape(mat: string, rep: Replies, c: seq<Json>)
    requires |c| == 5
    ensures var d := DetailRecord(mat, rep, c);
      d.Keys == {"Material", "billed_order", "open_order", "blocked_order", "upcoming_order",
                 "cnt_cred_block", "cnt_del_block", "cnt_unconf_delay", "cnt_do_delay", "cnt_incomplete"}
      && d["Material"] == Str(mat) && d["billed_order"] == Get(rep.billed, mat, Null)
      && d["cnt_cred_block"] == c[0] && d["cnt_del_block"] == c[1]
      && d["cnt_unconf_delay"] == c[2] && d["cnt_do_delay"] == c[3] && d["cnt_incomplete"] == c[4]
  {
  }

  lemma DetailNamesMaterial(mat: string, rep: Replies)
    requires DetailOf(mat, rep).Ok?
    ensures DetailOf(mat, rep).value.Object?
    ensures "Material" in DetailOf(mat, rep).value.fields && DetailOf(mat, rep).value.fields["Material"] == Str(mat)
  {
  }

  /** One detail per model with a non-empty material code, in order:
      the detail of that material. */
  lemma {:induction false} DetailsFollowMaterials(models: seq<Json>, rep: Replies)
    requires DetailsOf(models, rep).Ok?
    ensures NamedMaterials(models).Ok?
    ensures |DetailsOf(models, rep).value| == |NamedMaterials(models).value|
    ensures forall i :: 0 <= i < |DetailsOf(models, rep).value| ==>
      DetailOf(NamedMaterials(models).value[i], rep) == Ok(DetailsOf(models, rep).value[i])
    decreases |models|
  {
    if models != [] {
      var init := models[..|models| - 1];
      DetailsFollowMaterials(init, rep);
      var ds := DetailsOf(init, rep).value;
      var names := NamedMaterials(init).value;
      var m := MaterialOf(models[|models| - 1]).value;
      if m == "" {
        assert DetailsOf(models, rep).value == ds;
        assert NamedMaterials(models).value == names;
      } else {
        assert DetailsOf(models, rep).value == ds + [DetailOf(m, rep).value];
        assert NamedMaterials(models).value == names + [m];
      }
    }
  }

  /** Every name the defaults loop sets is a declared field, so on a
      result that holds all its declared fields the loop changes nothing. */
  lemma DefaultsNeverApply(attrs: map<string, Json>)
    requires DeclaredFields() <= attrs.Keys
    ensures ApplyDefaults(attrs, OrderAttrs()) == attrs
  {
    forall k | 0 <= k < 10 ensures OrderAttrs()[k] in attrs {
      var suffix := if k % 2 == 0 then ACCOUNT_MODEL_ORDERS else PRDG_MODEL_ORDERS;
      IndexedDeclared(k / 2 + 1, suffix);
    }
    DefaultsAddMissing(attrs, OrderAttrs());
  }

  // ---- the page builders ----

  /** base[f"top{i}{suffix}"] = safe_get_attr(result, name, dflt) or dflt,
      for each (suffix, dflt) of the entries. */
  function AddEntries(attrs: map<string, Json>, page: map<string, Json>, entries: seq<(string, Json)>, i: nat): map<string, Json>
    requires 1 <= i <= 5
    decreases |entries|
  {
    if entries == [] then page
    else
      var name := Indexed(i, entries[0].0);
      AddEntries(attrs, page[name := AttrOr(attrs, name, entries[0].1)], entries[1..], i)
  }

  /** The same for i, i+1, ..., 5. */
  function AddPerIndex(attrs: map<string, Json>, page: map<string, Json>, entries: seq<(string, Json)>, i: nat): map<string, Json>
    requires 1 <= i
    decreases 6 - i
  {
    if i > 5 then page else AddPerIndex(attrs, AddEntries(attrs, page, entries, i), entries, i + 1)
  }

  /** The keys one index adds, and the keys indices i..5 add. */
  function StepKeys(entries: seq<(string, Json)>, i: nat): set<string>
    requires i <= 9
  {
    set e | e in entries :: Indexed(i, e.0)
  }

  function IndexedKeys(entries: seq<(string, Json)>, i: nat): set<string> {
    set j: nat, e | i <= j <= 5 && e in entries :: Indexed(j, e.0)
  }

  lemma IndexedInjective(i: nat, s: string, j: nat, t: string)
    requires 1 <= i <= 9 && 1 <= j <= 9 && Indexed(i, s) == Indexed(j, t)
    ensures i == j && s == t
  {
    assert Indexed(i, s)[3] == Digit(i);
    assert Indexed(j, t)[3] == Digit(j);
    DigitInjective(i, j);
    assert Indexed(i, s)[4..] == s;
    assert Indexed(j, t)[4..] == t;
  }

  predicate DistinctSuffixes(entries: seq<(string, Json)>) {
    forall a, b :: 0 <= a < b < |entries| ==> entries[a].0 != entries[b].0
  }

  lemma {:induction false} AddEntriesKeys(attrs: map<string, Json>, page: map<string, Json>, entries: seq<(string, Json)>, i: nat)
    requires 1 <= i <= 5
    ensures AddEntries(attrs, page, entries, i).Keys == page.Keys + StepKeys(entries, i)
    decreases |entries|
  {
    if entries != [] {
      var name := Indexed(i, entries[0].0);
      AddEntriesKeys(attrs, page[name := AttrOr(attrs, name, entries[0].1)], entries[1..], i);
      assert entries == [entries[0]] + entries[1..];
      assert StepKeys(entries, i) == {name} + StepKeys(entries[1..], i);
    }
  }

  lemma {:induction false} AddEntriesFrame(attrs: map<string, Json>, page: map<string, Json>, entries: seq<(string, Json)>, i: nat, k: string)
    requires 1 <= i <= 5 && k in page && k !in StepKeys(entries, i)
    ensures k in AddEntries(attrs, page, entries, i) && AddEntries(attrs, page, entries, i)[k] == page[k]
    decreases |entries|
  {
    if entries != [] {
      var name := Indexed(i, entries[0].0);
      assert entries[0] in entries;
      assert StepKeys(entries[1..], i) <= StepKeys(entries, i);
      AddEntriesFrame(attrs, page[name := AttrOr(attrs, name, entries[0].1)], entries[1..], i, k);
    }
  }

  lemma {:induction false} AddEntriesValue(attrs: map<string, Json>, page: map<string, Json>, entries: seq<(string, Json)>, i: nat, b: nat)
    requires 1 <= i <= 5 && DistinctSuffixes(entries) && b < |entries|
    ensures var name := Indexed(i, entries[b].0);
      name in AddEntries(attrs, page, entries, i) && AddEntries(attrs, page, entries, i)[name] == AttrOr(attrs, name, entries[b].1)
    decreases |entries|
  {
    var name := Indexed(i, entries[0].0);
    var next := page[name := AttrOr(attrs, name, entries[0].1)];
    if b == 0 {
      if Indexed(i, entries[0].0) in StepKeys(entries[1..], i) {
        var e :| e in entries[1..] && Indexed(i, e.0) == name;
        var c :| 0 <= c < |entries[1..]| && entries[1..][c] == e;
        IndexedInjective(i, e.0, i, entries[0].0);
      }
      AddEntriesFrame(attrs, next, entries[1..], i, name);
    } else {
      assert entries[1..][b - 1] == entries[b];
      AddEntriesValue(attrs, next, entries[1..], i, b - 1);
    }
  }

  lemma IndexedKeysSplit(entries: seq<(string, Json)>, i: nat)
    requires 1 <= i <= 5
    ensures IndexedKeys(entries, i) == StepKeys(entries, i) + IndexedKeys(entries, i + 1)
    ensures StepKeys(entries, i) !! IndexedKeys(entries, i + 1)
  {
    forall k | k in StepKeys(entries, i) ensures k !in IndexedKeys(entries, i + 1) {
      var e :| e in entries && k == Indexed(i, e.0);
      if k in IndexedKeys(entries, i + 1) {
        var j: nat, f :| i + 1 <= j <= 5 && f in entries && Indexed(j, f.0) == k;
        IndexedInjective(j, f.0, i, e.0);
      }
    }
  }

  lemma {:induction false} AddPerIndexKeys(attrs: map<string, Json>, page: map<string, Json>, entries: seq<(string, Json)>, i: nat)
    requires 1 <= i
    ensures AddPerIndex(attrs, page, entries, i).Keys == page.Keys + IndexedKeys(entries, i)
    decreases 6 - i
  {
    if i <= 5 {
      AddEntriesKeys(attrs, page, entries, i);
      AddPerIndexKeys(attrs, AddEntries(attrs, page, entries, i), entries, i + 1);
      IndexedKeysSplit(entries, i);
    } else {
      assert IndexedKeys(entries, i) == {};
    }
  }

  lemma {:induction false} AddPerIndexFrame(attrs: map<string, Json>, page: map<string, Json>, entries: seq<(string, Json)>, i: nat, k: string)
    requires 1 <= i && k in page && k !in IndexedKeys(entries, i)
    ensures k in AddPerIndex(attrs, page, entries, i) && AddPerIndex(attrs, page, entries, i)[k] == page[k]
    decreases 6 - i
  {
    if i <= 5 {
      IndexedKeysSplit(entries, i);
      AddEntriesFrame(attrs, page, entries, i, k);
      AddPerIndexFrame(attrs, AddEntries(attrs, page, entries, i), entries, i + 1, k);
    }
  }

  lemma {:induction false} AddPerIndexValue(attrs: map<string, Json>, page: map<string, Json>, entries: seq<(string, Json)>, i: nat, j: nat, b: nat)
    requires 1 <= i <= j <= 5 && DistinctSuffixes(entries) && b < |entries|
    ensures var name := Indexed(j, entries[b].0);
      name in AddPerIndex(attrs, page, entries, i) && AddPerIndex(attrs, page, entries, i)[name] == AttrOr(attrs, name, entries[b].1)
    decreases 6 - i
  {
    var next := AddEntries(attrs, page, entries, i);
    if i == j {
      AddEntriesValue(attrs, page, entries, i, b);
      IndexedKeysSplit(entries, i);
      assert entries[b] in entries;
      AddPerIndexFrame(attrs, next, entries, i + 1, Indexed(j, entries[b].0));
    } else {
      AddPerIndexValue(attrs, next, entries, i + 1, j, b);
    }
  }

  /** A key outside the indexed names reads the same after it is written,
      so writing it leaves the indexed part of a page unchanged. */
  lemma {:induction false} AddEntriesIgnores(attrs: map<string, Json>, p: string, v: Json, page: map<string, Json>, entries: seq<(string, Json)>, i: nat)
    requires 1 <= i <= 5 && p !in StepKeys(entries, i)
    ensures AddEntries(attrs[p := v], page, entries, i) == AddEntries(attrs, page, entries, i)
    decreases |entries|
  {
    if entries != [] {
      var name := Indexed(i, entries[0].0);
      assert entries[0] in entries;
      assert StepKeys(entries[1..], i) <= StepKeys(entries, i);
      AddEntriesIgnores(attrs, p, v, page[name := AttrOr(attrs, name, entries[0].1)], entries[1..], i);
    }
  }

  lemma {:induction false} AddPerIndexIgnores(attrs: map<string, Json>, p: string, v: Json, page: map<string, Json>, entries: seq<(string, Json)>, i: nat)
    requires 1 <= i && p !in IndexedKeys(entries, i)
    ensures AddPerIndex(attrs[p := v], page, entries, i) == AddPerIndex(attrs, page, entries, i)
    decreases 6 - i
  {
    if i <= 5 {
      IndexedKeysSplit(entries, i);
      AddEntriesIgnores(attrs, p, v, page, entries, i);
      AddPerIndexIgnores(attrs, p, v, AddEntries(attrs, page, entries, i), entries, i + 1);
    }
  }

  /** An indexed name is longer than any shorter name, so never equal to it. */
  lemma ShortNameNotIndexed(entries: seq<(string, Json)>, i: nat, k: string)
    requires LongSuffixes(entries, 10) && |k| < 14
    ensures k !in IndexedKeys(entries, i)
  {
  }

  const SODE00_ENTRIES: seq<(string, Json)> := [("_account_order", EmptyObject), ("_account_top1_prdg", EmptyList), (ACCOUNT_MODELS, EmptyList)]
  const PGDE00_ENTRIES: seq<(string, Json)> := [("_prdg_order", EmptyObject), ("_prdg_top1_prd", EmptyList), (PRDG_MODELS, EmptyList), ("_prdg_top5_account", EmptyList)]
  const MODE00_ENTRIES: seq<(string, Json)> := [(ACCOUNT_MODEL_ORDERS, EmptyList), (PRDG_MODEL_ORDERS, EmptyList)]

  predicate LongSuffixes(entries: seq<(string, Json)>, n: nat) {
    forall b :: 0 <= b < |entries| ==> |entries[b].0| >= n
  }

  /** The three entry tables name each suffix once, and every suffix has at
      least ten characters. */
  lemma EntryTables()
    ensures DistinctSuffixes(SODE00_ENTRIES) && LongSuffixes(SODE00_ENTRIES, 10)
    ensures DistinctSuffixes(PGDE00_ENTRIES) && LongSuffixes(PGDE00_ENTRIES, 10)
    ensures DistinctSuffixes(MODE00_ENTRIES) && LongSuffixes(MODE00_ENTRIES, 10)
  {
  }

  function BuildSOSE00(attrs: map<string, Json>): map<string, Json> {
    map["top5_accounts" := AttrOr(attrs, "top5_accounts", EmptyList)]
  }

  function BuildSODE00(attrs: map<string, Json>): map<string, Json> {
    AddPerIndex(attrs, map["top5_accounts" := AttrOr(attrs, "top5_accounts", EmptyList), "CUR" := SafeGetAttr(attrs, "CUR", Null)], SODE00_ENTRIES, 1)
  }

  function BuildPGSE00(attrs: map<string, Json>): map<string, Json> {
    map["top5_prdgs" := AttrOr(attrs, "top5_prdgs", EmptyList)]
  }

  function BuildPGDE00(attrs: map<string, Json>): map<string, Json> {
    AddPerIndex(attrs, map["top5_prdgs" := AttrOr(attrs, "top5_prdgs", EmptyList), "CUR" := SafeGetAttr(attrs, "CUR", Null)], PGDE00_ENTRIES, 1)
  }

  function BuildMODE00(attrs: map<string, Json>): map<string, Json> {
    AddPerIndex(attrs, map["CUR" := SafeGetAttr(attrs, "CUR", Null)], MODE00_ENTRIES, 1)
  }

  const OPTR00_KEYS: seq<string> := [
    "total_est_sales", "total_billed_order", "total_open_order", "total_blocked_order", "total_upcoming_order",
    "cnt_cred_block", "cnt_del_block", "cnt_unconf_delay", "cnt_do_delay", "cnt_incomplete", "CUR"]

  /** The operation tracker page: each attribute as it is, None when absent. */
  function BuildOPTR00(attrs: map<string, Json>): (r: map<string, Json>)
    ensures r.Keys == set k | k in OPTR00_KEYS
    ensures forall k :: k in r ==> r[k] == SafeGetAttr(attrs, k, Null)
  {
    map k | k in OPTR00_KEYS :: SafeGetAttr(attrs, k, Null)
  }

  /** A page under construction: its fixed keys, then the indexed entries
      for i = 1..5, each falsy attribute replaced by its default. */
  lemma PageShape(attrs: map<string, Json>, base: map<string, Json>, entries: seq<(string, Json)>)
    requires DistinctSuffixes(entries)
    requires forall k :: k in base ==> k !in IndexedKeys(entries, 1)
    ensures var r := AddPerIndex(attrs, base, entries, 1);
      r.Keys == base.Keys + IndexedKeys(entries, 1)
      && (forall k :: k in base ==> r[k] == base[k])
      && (forall j: nat, b :: 1 <= j <= 5 && 0 <= b < |entries| ==>
            r[Indexed(j, entries[b].0)] == AttrOr(attrs, Indexed(j, entries[b].0), entries[b].1))
  {
    AddPerIndexKeys(attrs, base, entries, 1);
    forall k | k in base ensures AddPerIndex(attrs, base, entries, 1)[k] == base[k] {
      AddPerIndexFrame(attrs, base, entries, 1, k);
    }
    forall j: nat, b | 1 <= j <= 5 && 0 <= b < |entries|
      ensures AddPerIndex(attrs, base, entries, 1)[Indexed(j, entries[b].0)] == AttrOr(attrs, Indexed(j, entries[b].0), entries[b].1)
    {
      AddPerIndexValue(attrs, base, entries, 1, j, b);
    }
  }

  /** build_SODE00: top5_accounts and CUR, then for each i in 1..5 the
      account's order ({} by default), its top product group and its top
      models ([] by default). */
  lemma SODE00Shape(attrs: map<string, Json>)
    ensures var r := BuildSODE00(attrs);
      r.Keys == {"top5_accounts", "CUR"} + IndexedKeys(SODE00_ENTRIES, 1)
      && r["top5_accounts"] == AttrOr(attrs, "top5_accounts", EmptyList)
      && r["CUR"] == SafeGetAttr(attrs, "CUR", Null)
      && (forall j: nat, b :: 1 <= j <= 5 && 0 <= b < |SODE00_ENTRIES| ==>
            r[Indexed(j, SODE00_ENTRIES[b].0)] == AttrOr(attrs, Indexed(j, SODE00_ENTRIES[b].0), SODE00_ENTRIES[b].1))
  {
    EntryTables();
    var base := map["top5_accounts" := AttrOr(attrs, "top5_accounts", EmptyList), "CUR" := SafeGetAttr(attrs, "CUR", Null)];
    assert base.Keys == {"top5_accounts", "CUR"};
    ShortNameNotIndexed(SODE00_ENTRIES, 1, "top5_accounts");
    ShortNameNotIndexed(SODE00_ENTRIES, 1, "CUR");
    PageShape(attrs, base, SODE00_ENTRIES);
  }

  /** build_PGDE00: top5_prdgs and CUR, then for each i the product
      group's order, top product, top models and top accounts. */
  lemma PGDE00Shape(attrs: map<string, Json>)
    ensures var r := BuildPGDE00(attrs);
      r.Keys == {"top5_prdgs", "CUR"} + IndexedKeys(PGDE00_ENTRIES, 1)
      && r["top5_prdgs"] == AttrOr(attrs, "top5_prdgs", EmptyList)
      && r["CUR"] == SafeGetAttr(attrs, "CUR", Null)
      && (forall j: nat, b :: 1 <= j <= 5 && 0 <= b < |PGDE00_ENTRIES| ==>
            r[Indexed(j, PGDE00_ENTRIES[b].0)] == AttrOr(attrs, Indexed(j, PGDE00_ENTRIES[b].0), PGDE00_ENTRIES[b].1))
  {
    EntryTables();
    var base := map["top5_prdgs" := AttrOr(attrs, "top5_prdgs", EmptyList), "CUR" := SafeGetAttr(attrs, "CUR", Null)];
    assert base.Keys == {"top5_prdgs", "CUR"};
    ShortNameNotIndexed(PGDE00_ENTRIES, 1, "top5_prdgs");
    ShortNameNotIndexed(PGDE00_ENTRIES, 1, "CUR");
    PageShape(attrs, base, PGDE00_ENTRIES);
  }

  /** build_MODE00: CUR, then for each i the two converted model lists. */
  lemma MODE00Shape(attrs: map<string, Json>)
    ensures var r := BuildMODE00(attrs);
      r.Keys == {"CUR"} + IndexedKeys(MODE00_ENTRIES, 1)
      && r["CUR"] == SafeGetAttr(attrs, "CUR", Null)
      && (forall j: nat, b :: 1 <= j <= 5 && 0 <= b < |MODE00_ENTRIES| ==>
            r[Indexed(j, MODE00_ENTRIES[b].0)] == AttrOr(attrs, Indexed(j, MODE00_ENTRIES[b].0), MODE00_ENTRIES[b].1))
  {
    EntryTables();
    var base := map["CUR" := SafeGetAttr(attrs, "CUR", Null)];
    assert base.Keys == {"CUR"};
    ShortNameNotIndexed(MODE00_ENTRIES, 1, "CUR");
    PageShape(attrs, base, MODE00_ENTRIES);
  }

  // ---- build_page ----

  const PAGE_NAMES: set<string> := {"LAPA00", "SOSE00", "SODE00", "PGSE00", "PGDE00", "MODE00", "OPTR00"}

  /** Writing a six-letter name (a page name) leaves every builder's
      answer as it was: the builders read only the lists, CUR and the
      totals, none of which has six letters. */
  lemma SODE00IgnoresPage(a: map<string, Json>, p: string, v: Json)
    requires |p| == 6
    ensures BuildSODE00(a[p := v]) == BuildSODE00(a)
  {
    EntryTables();
    ShortNameNotIndexed(SODE00_ENTRIES, 1, p);
    var base := map["top5_accounts" := AttrOr(a, "top5_accounts", EmptyList), "CUR" := SafeGetAttr(a, "CUR", Null)];
    assert base == map["top5_accounts" := AttrOr(a[p := v], "top5_accounts", EmptyList), "CUR" := SafeGetAttr(a[p := v], "CUR", Null)];
    AddPerIndexIgnores(a, p, v, base, SODE00_ENTRIES, 1);
  }

  lemma PGDE00IgnoresPage(a: map<string, Json>, p: string, v: Json)
    requires |p| == 6
    ensures BuildPGDE00(a[p := v]) == BuildPGDE00(a)
  {
    EntryTables();
    ShortNameNotIndexed(PGDE00_ENTRIES, 1, p);
    var base := map["top5_prdgs" := AttrOr(a, "top5_prdgs", EmptyList), "CUR" := SafeGetAttr(a, "CUR", Null)];
    assert base == map["top5_prdgs" := AttrOr(a[p := v], "top5_prdgs", EmptyList), "CUR" := SafeGetAttr(a[p := v], "CUR", Null)];
    AddPerIndexIgnores(a, p, v, base, PGDE00_ENTRIES, 1);
  }

  lemma MODE00IgnoresPage(a: map<string, Json>, p: string, v: Json)
    requires |p| == 6
    ensures BuildMODE00(a[p := v]) == BuildMODE00(a)
  {
    EntryTables();
    ShortNameNotIndexed(MODE00_ENTRIES, 1, p);
    var base := map["CUR" := SafeGetAttr(a, "CUR", Null)];
    assert base == map["CUR" := SafeGetAttr(a[p := v], "CUR", Null)];
    AddPerIndexIgnores(a, p, v, base, MODE00_ENTRIES, 1);
  }

  lemma OPTR00IgnoresPage(a: map<string, Json>, p: string, v: Json)
    requires |p| == 6
    ensures BuildOPTR00(a[p := v]) == BuildOPTR00(a)
  {
    OPTR00KeyLengths();
    var m1, m2 := BuildOPTR00(a[p := v]), BuildOPTR00(a);
    forall k | k in m1 ensures m1[k] == m2[k] {
      assert |k| != 6;
    }
    assert m1.Keys == m2.Keys;
  }

  /** The operation tracker page always holds CUR, so it is never {}. */
  lemma OPTR00NonEmpty(attrs: map<string, Json>)
    ensures "CUR" in BuildOPTR00(attrs) && Object(BuildOPTR00(attrs)) != EmptyObject
  {
    assert "CUR" in OPTR00_KEYS;
  }

  /** No key of the operation tracker page is six characters long. */
  lemma OPTR00KeyLengths()
    ensures forall k :: k in OPTR00_KEYS ==> |k| != 6
  {
  }

  /** The two top-five lists, and the single-list pages built from them,
      are read under names that are not six characters long. */
  lemma TopListsIgnorePage(a: map<string, Json>, p: string, v: Json)
    requires |p| == 6
    ensures SafeGetAttr(a[p := v], "top5_accounts", EmptyList) == SafeGetAttr(a, "top5_accounts", EmptyList)
    ensures SafeGetAttr(a[p := v], "top5_prdgs", EmptyList) == SafeGetAttr(a, "top5_prdgs", EmptyList)
    ensures BuildSOSE00(a[p := v]) == BuildSOSE00(a) && BuildPGSE00(a[p := v]) == BuildPGSE00(a)
  {
    assert |"top5_accounts"| == 13 && |"top5_prdgs"| == 10;
  }

  lemma BuildersIgnorePage(a: map<string, Json>, p: string, v: Json)
    requires |p| == 6
    ensures BuildSOSE00(a[p := v]) == BuildSOSE00(a) && BuildSODE00(a[p := v]) == BuildSODE00(a)
    ensures BuildPGSE00(a[p := v]) == BuildPGSE00(a) && BuildPGDE00(a[p := v]) == BuildPGDE00(a)
    ensures BuildMODE00(a[p := v]) == BuildMODE00(a) && BuildOPTR00(a[p := v]) == BuildOPTR00(a)
    ensures SafeGetAttr(a[p := v], "top5_accounts", EmptyList) == SafeGetAttr(a, "top5_accounts", EmptyList)
    ensures SafeGetAttr(a[p := v], "top5_prdgs", EmptyList) == SafeGetAttr(a, "top5_prdgs", EmptyList)
  {
    TopListsIgnorePage(a, p, v);
    SODE00IgnoresPage(a, p, v);
    PGDE00IgnoresPage(a, p, v);
    MODE00IgnoresPage(a, p, v);
    OPTR00IgnoresPage(a, p, v);
  }

  /** The account pages: built when top5_accounts is truthy, {} otherwise. */
  function AccountPages(a: map<string, Json>): map<string, Json> {
    if Truthy(SafeGetAttr(a, "top5_accounts", EmptyList)) then
      var s := a["SOSE00" := Object(BuildSOSE00(a))];
      s["SODE00" := Object(BuildSODE00(s))]
    else a["SOSE00" := EmptyObject]["SODE00" := EmptyObject]
  }

  function ProductPages(a: map<string, Json>): map<string, Json> {
    if Truthy(SafeGetAttr(a, "top5_prdgs", EmptyList)) then
      var s := a["PGSE00" := Object(BuildPGSE00(a))];
      s["PGDE00" := Object(BuildPGDE00(s))]
    else a["PGSE00" := EmptyObject]["PGDE00" := EmptyObject]
  }

  function ModelPage(a: map<string, Json>): map<string, Json> {
    if Truthy(SafeGetAttr(a, "top5_accounts", EmptyList)) || Truthy(SafeGetAttr(a, "top5_prdgs", EmptyList)) then
      a["MODE00" := Object(BuildMODE00(a))]
    else a["MODE00" := EmptyObject]
  }

  /** build_page, step by step: LAPA00, the account pages, the product
      pages, the model page, OPTR00. build_LAPA00 is not part of this
      model: its page is the parameter `lapa`. */
  function PageAttrs(attrs: map<string, Json>, lapa: Json): map<string, Json> {
    var a := ModelPage(ProductPages(AccountPages(attrs["LAPA00" := lapa])));
    a["OPTR00" := Object(BuildOPTR00(a))]
  }

  method BuildPage(sr: ScenarioResult, lapa: Json)
    modifies sr
    ensures sr.attrs == PageAttrs(old(sr.attrs), lapa)
    ensures sr.executionId == old(sr.executionId) && sr.senderName == old(sr.senderName)
    ensures sr.userId == old(sr.userId) && sr.chatroomId == old(sr.chatroomId)
  {
    sr.SetAttr("LAPA00", lapa);
    if Truthy(SafeGetAttr(sr.attrs, "top5_accounts", EmptyList)) {
      sr.SetAttr("SOSE00", Object(BuildSOSE00(sr.attrs)));
      sr.SetAttr("SODE00", Object(BuildSODE00(sr.attrs)));
    } else {
      sr.SetAttr("SOSE00", EmptyObject);
      sr.SetAttr("SODE00", EmptyObject);
    }
    if Truthy(SafeGetAttr(sr.attrs, "top5_prdgs", EmptyList)) {
      sr.SetAttr("PGSE00", Object(BuildPGSE00(sr.attrs)));
      sr.SetAttr("PGDE00", Object(BuildPGDE00(sr.attrs)));
    } else {
      sr.SetAttr("PGSE00", EmptyObject);
      sr.SetAttr("PGDE00", EmptyObject);
    }
    if Truthy(SafeGetAttr(sr.attrs, "top5_accounts", EmptyList)) || Truthy(SafeGetAttr(sr.attrs, "top5_prdgs", EmptyList)) {
      sr.SetAttr("MODE00", Object(BuildMODE00(sr.attrs)));
    } else {
      sr.SetAttr("MODE00", EmptyObject);
    }
    sr.SetAttr("OPTR00", Object(BuildOPTR00(sr.attrs)));
  }

  lemma AccountPagesFacts(a: map<string, Json>)
    ensures var r := AccountPages(a); var acc := Truthy(SafeGetAttr(a, "top5_accounts", EmptyList));
      r == a["SOSE00" := if acc then Object(BuildSOSE00(a)) else EmptyObject]["SODE00" := if acc then Object(BuildSODE00(a)) else EmptyObject]
  {
    BuildersIgnorePage(a, "SOSE00", Object(BuildSOSE00(a)));
  }

  lemma ProductPagesFacts(a: map<string, Json>)
    ensures var r := ProductPages(a); var prd := Truthy(SafeGetAttr(a, "top5_prdgs", EmptyList));
      r == a["PGSE00" := if prd then Object(BuildPGSE00(a)) else EmptyObject]["PGDE00" := if prd then Object(BuildPGDE00(a)) else EmptyObject]
  {
    BuildersIgnorePage(a, "PGSE00", Object(BuildPGSE00(a)));
  }

  /** The builders and both tests read a and b alike. */
  predicate SameForBuilders(a: map<string, Json>, b: map<string, Json>) {
    BuildSOSE00(a) == BuildSOSE00(b) && BuildSODE00(a) == BuildSODE00(b)
    && BuildPGSE00(a) == BuildPGSE00(b) && BuildPGDE00(a) == BuildPGDE00(b)
    && BuildMODE00(a) == BuildMODE00(b) && BuildOPTR00(a) == BuildOPTR00(b)
    && SafeGetAttr(a, "top5_accounts", EmptyList) == SafeGetAttr(b, "top5_accounts", EmptyList)
    && SafeGetAttr(a, "top5_prdgs", EmptyList) == SafeGetAttr(b, "top5_prdgs", EmptyList)
  }

  lemma WritePageSame(a: map<string, Json>, b: map<string, Json>, p: string, v: Json)
    requires |p| == 6 && SameForBuilders(a, b)
    ensures SameForBuilders(a[p := v], b)
  {
    BuildersIgnorePage(a, p, v);
  }

  lemma AccountStage(a: map<string, Json>, attrs: map<string, Json>)
    requires SameForBuilders(a, attrs)
    ensures var acc := Truthy(SafeGetAttr(attrs, "top5_accounts", EmptyList));
      AccountPages(a) == a["SOSE00" := if acc then Object(BuildSOSE00(attrs)) else EmptyObject]
                          ["SODE00" := if acc then Object(BuildSODE00(attrs)) else EmptyObject]
    ensures SameForBuilders(AccountPages(a), attrs)
  {
    AccountPagesFacts(a);
    var acc := Truthy(SafeGetAttr(attrs, "top5_accounts", EmptyList));
    var s1 := if acc then Object(BuildSOSE00(attrs)) else EmptyObject;
    WritePageSame(a, attrs, "SOSE00", s1);
    WritePageSame(a["SOSE00" := s1], attrs, "SODE00", if acc then Object(BuildSODE00(attrs)) else EmptyObject);
  }

  lemma ProductStage(a: map<string, Json>, attrs: map<string, Json>)
    requires SameForBuilders(a, attrs)
    ensures var prd := Truthy(SafeGetAttr(attrs, "top5_prdgs", EmptyList));
      ProductPages(a) == a["PGSE00" := if prd then Object(BuildPGSE00(attrs)) else EmptyObject]
                          ["PGDE00" := if prd then Object(BuildPGDE00(attrs)) else EmptyObject]
    ensures SameForBuilders(ProductPages(a), attrs)
  {
    ProductPagesFacts(a);
    var prd := Truthy(SafeGetAttr(attrs, "top5_prdgs", EmptyList));
    var p1 := if prd then Object(BuildPGSE00(attrs)) else EmptyObject;
    WritePageSame(a, attrs, "PGSE00", p1);
    WritePageSame(a["PGSE00" := p1], attrs, "PGDE00", if prd then Object(BuildPGDE00(attrs)) else EmptyObject);
  }

  lemma ModelStage(a: map<string, Json>, attrs: map<string, Json>)
    requires SameForBuilders(a, attrs)
    ensures var acc := Truthy(SafeGetAttr(attrs, "top5_accounts", EmptyList));
      var prd := Truthy(SafeGetAttr(attrs, "top5_prdgs", EmptyList));
      ModelPage(a) == a["MODE00" := if acc || prd then Object(BuildMODE00(attrs)) else EmptyObject]
    ensures SameForBuilders(ModelPage(a), attrs)
  {
    var acc := Truthy(SafeGetAttr(attrs, "top5_accounts", EmptyList));
    var prd := Truthy(SafeGetAttr(attrs, "top5_prdgs", EmptyList));
    var m := if acc || prd then Object(BuildMODE00(attrs)) else EmptyObject;
    assert Truthy(SafeGetAttr(a, "top5_accounts", EmptyList)) == acc;
    assert Truthy(SafeGetAttr(a, "top5_prdgs", EmptyList)) == prd;
    assert BuildMODE00(a) == BuildMODE00(attrs);
    assert ModelPage(a) == a["MODE00" := m];
    WritePageSame(a, attrs, "MODE00", m);
  }

  /** build_page as seven writes, each page computed from the result
      as it was before build_page. */
  lemma PageAttrsChain(attrs: map<string, Json>, lapa: Json)
    ensures var acc := Truthy(SafeGetAttr(attrs, "top5_accounts", EmptyList));
      var prd := Truthy(SafeGetAttr(attrs, "top5_prdgs", EmptyList));
      PageAttrs(attrs, lapa) == attrs["LAPA00" := lapa]
        ["SOSE00" := if acc then Object(BuildSOSE00(attrs)) else EmptyObject]
        ["SODE00" := if acc then Object(BuildSODE00(attrs)) else EmptyObject]
        ["PGSE00" := if prd then Object(BuildPGSE00(attrs)) else EmptyObject]
        ["PGDE00" := if prd then Object(BuildPGDE00(attrs)) else EmptyObject]
        ["MODE00" := if acc || prd then Object(BuildMODE00(attrs)) else EmptyObject]
        ["OPTR00" := Object(BuildOPTR00(attrs))]
  {
    var a0 := attrs["LAPA00" := lapa];
    WritePageSame(attrs, attrs, "LAPA00", lapa);
    AccountStage(a0, attrs);
    var a1 := AccountPages(a0);
    ProductStage(a1, attrs);
    var a2 := ProductPages(a1);
    ModelStage(a2, attrs);
  }

  /** Every page is computed from the result as it was before build_page:
      the account pages exactly when top5_accounts is truthy, the product
      pages exactly when top5_prdgs is, the model page when either is,
      OPTR00 and LAPA00 always; no other attribute changes. */
  lemma BuildPagePairs(attrs: map<string, Json>, lapa: Json)
    ensures var r := PageAttrs(attrs, lapa);
      var acc := Truthy(SafeGetAttr(attrs, "top5_accounts", EmptyList));
      var prd := Truthy(SafeGetAttr(attrs, "top5_prdgs", EmptyList));
      r.Keys == attrs.Keys + PAGE_NAMES
      && (forall k :: k in attrs && k !in PAGE_NAMES ==> r[k] == attrs[k])
      && r["LAPA00"] == lapa
      && r["SOSE00"] == (if acc then Object(BuildSOSE00(attrs)) else EmptyObject)
      && r["SODE00"] == (if acc then Object(BuildSODE00(attrs)) else EmptyObject)
      && r["PGSE00"] == (if prd then Object(BuildPGSE00(attrs)) else EmptyObject)
      && r["PGDE00"] == (if prd then Object(BuildPGDE00(attrs)) else EmptyObject)
      && r["MODE00"] == (if acc || prd then Object(BuildMODE00(attrs)) else EmptyObject)
      && r["OPTR00"] == Object(BuildOPTR00(attrs))
  {
    PageAttrsChain(attrs, lapa);
    var acc := Truthy(SafeGetAttr(attrs, "top5_accounts", EmptyList));
    var prd := Truthy(SafeGetAttr(attrs, "top5_prdgs", EmptyList));
    WritesOfPages(attrs, lapa, if acc then Object(BuildSOSE00(attrs)) else EmptyObject,
      if acc then Object(BuildSODE00(attrs)) else EmptyObject, if prd then Object(BuildPGSE00(attrs)) else EmptyObject,
      if prd then Object(BuildPGDE00(attrs)) else EmptyObject, if acc || prd then Object(BuildMODE00(attrs)) else EmptyObject,
      Object(BuildOPTR00(attrs)));
  }

  /** Seven writes, one per page name. */
  lemma WritesOfPages(attrs: map<string, Json>, v1: Json, v2: Json, v3: Json, v4: Json, v5: Json, v6: Json, v7: Json)
    ensures var r := attrs["LAPA00" := v1]["SOSE00" := v2]["SODE00" := v3]["PGSE00" := v4]["PGDE00" := v5]["MODE00" := v6]["OPTR00" := v7];
      r.Keys == attrs.Keys + PAGE_NAMES
      && (forall k :: k in attrs && k !in PAGE_NAMES ==> r[k] == attrs[k])
      && r["LAPA00"] == v1 && r["SOSE00"] == v2 && r["SODE00"] == v3 && r["PGSE00"] == v4
      && r["PGDE00"] == v5 && r["MODE00"] == v6 && r["OPTR00"] == v7
  {
  }

  /** A built SOSE00, SODE00, PGSE00, PGDE00 or MODE00 page is never the
      empty dict, so an empty page tells that its list was empty. */
  lemma PagesPresentIff(attrs: map<string, Json>, lapa: Json)
    ensures var r := PageAttrs(attrs, lapa);
      var acc := Truthy(SafeGetAttr(attrs, "top5_accounts", EmptyList));
      var prd := Truthy(SafeGetAttr(attrs, "top5_prdgs", EmptyList));
      (r["SOSE00"] != EmptyObject <==> acc) && (r["SODE00"] != EmptyObject <==> acc)
      && (r["PGSE00"] != EmptyObject <==> prd) && (r["PGDE00"] != EmptyObject <==> prd)
      && (r["MODE00"] != EmptyObject <==> acc || prd)
  {
    BuildPagePairs(attrs, lapa);
    SODE00Shape(attrs);
    PGDE00Shape(attrs);
    MODE00Shape(attrs);
    assert "top5_accounts" in BuildSOSE00(attrs) && "top5_accounts" in BuildSODE00(attrs);
    assert "top5_prdgs" in BuildPGSE00(attrs) && "top5_prdgs" in BuildPGDE00(attrs);
    assert "CUR" in BuildMODE00(attrs);
  }
}
