/** The parameterised statements the handlers send to the database: the text
    with `%s` placeholders and the tuple of values bound to them. The text is
    assembled from the same pieces the route layer uses, including the two
    dynamic parts: the WHERE clause of the shoe listing and the SET clause of
    the partial updates. The invariant is one placeholder per bound value. */
module Sql {
  import opened Strings
  import opened Payload

  datatype Statement = Statement(sql: string, params: seq<Value>)

  const Param := "%s"

  /** Number of `%s` placeholders, read left to right. */
  function Placeholders(s: string): nat {
    if |s| < 2 then 0
    else if s[0] == '%' && s[1] == 's' then 1 + Placeholders(s[2..])
    else Placeholders(s[1..])
  }

  /** One placeholder per bound value. */
  predicate Bound(st: Statement) {
    Placeholders(st.sql) == |st.params|
  }

  predicate NoPercent(s: string) {
    '%' !in s
  }

  lemma {:induction false} NoPercentNoPlaceholder(s: string)
    requires NoPercent(s)
    ensures Placeholders(s) == 0
  {
    if |s| >= 2 {
      assert s[0] in s;
      assert forall c :: c in s[1..] ==> c in s;
      NoPercentNoPlaceholder(s[1..]);
    }
  }

  /** Placeholders add up over a concatenation unless a `%` at the end of the
      first part meets an `s` at the start of the second. */
  lemma {:induction false} PlaceholdersAppend(a: string, b: string)
    requires |a| == 0 || |b| == 0 || a[|a| - 1] != '%' || b[0] != 's'
    ensures Placeholders(a + b) == Placeholders(a) + Placeholders(b)
  {
    if |a| == 0 {
      assert a + b == b;
    } else if |a| == 1 {
      assert (a + b)[1..] == b;
    } else if a[0] == '%' && a[1] == 's' {
      assert (a + b)[2..] == a[2..] + b;
      PlaceholdersAppend(a[2..], b);
    } else {
      assert (a + b)[1..] == a[1..] + b;
      PlaceholdersAppend(a[1..], b);
    }
  }

  /** Text free of `%` followed by one placeholder holds exactly one. */
  lemma OnePlaceholder(prefix: string)
    requires NoPercent(prefix)
    ensures Placeholders(prefix + Param) == 1
  {
    NoPercentNoPlaceholder(prefix);
    if |prefix| > 0 {
      assert prefix[|prefix| - 1] in prefix;
    }
    PlaceholdersAppend(prefix, Param);
  }

  /** Text free of `%` in front of other text adds no placeholder. */
  lemma PlainPrefix(head: string, rest: string)
    requires NoPercent(head) && |head| > 0
    ensures Placeholders(head + rest) == Placeholders(rest)
  {
    NoPercentNoPlaceholder(head);
    assert head[|head| - 1] in head;
    PlaceholdersAppend(head, rest);
  }

  /** Total number of placeholders inside the given texts. */
  function SumPlaceholders(parts: seq<string>): nat {
    if |parts| == 0 then 0 else Placeholders(parts[0]) + SumPlaceholders(parts[1..])
  }

  /** A separator that neither completes a `%` before it nor leaves a `%` that
      an `s` after it could complete, and holds no placeholder itself. */
  predicate InertSeparator(sep: string) {
    |sep| > 0 && sep[0] != 's' && sep[|sep| - 1] != '%' && Placeholders(sep) == 0
  }

  /** Joining with an inert separator neither adds nor loses placeholders. */
  lemma {:induction false} JoinPlaceholders(parts: seq<string>, sep: string)
    requires InertSeparator(sep)
    ensures Placeholders(Join(parts, sep)) == SumPlaceholders(parts)
  {
    if |parts| == 1 {
    } else if |parts| > 1 {
      var p := parts[0];
      var rest := Join(parts[1..], sep);
      JoinPlaceholders(parts[1..], sep);
      PlaceholdersAppend(p, sep);
      assert (p + sep)[|p + sep| - 1] == sep[|sep| - 1];
      PlaceholdersAppend(p + sep, rest);
      assert Join(parts, sep) == p + sep + rest;
    }
  }

  lemma {:induction false} JoinNoPercent(parts: seq<string>, sep: string)
    requires NoPercent(sep)
    requires forall i :: 0 <= i < |parts| ==> NoPercent(parts[i])
    ensures NoPercent(Join(parts, sep))
  {
    if |parts| > 1 {
      JoinNoPercent(parts[1..], sep);
    }
  }

  lemma InertSeparators()
    ensures InertSeparator(", ") && InertSeparator(" AND ") && InertSeparator(" OR ")
  {
  }

  // ---------------------------------------------------------------------------
  // Statement texts

  const IdCondition := " WHERE id = "

  /** `SELECT <columns> FROM <table>` */
  function SelectFrom(columns: string, table: string): string {
    "SELECT " + columns + " FROM " + table
  }

  /** `<select> WHERE <column> = %s` */
  function SelectWhere(select: string, column: string): string {
    select + " WHERE " + column + " = " + Param
  }

  /** `(%s, %s, …)` with `n` placeholders. */
  function ValueMarks(n: nat): seq<string> {
    seq(n, _ => Param)
  }

  /** `INSERT INTO <table> (<columns>) VALUES (%s, …)`, one placeholder per column. */
  function InsertInto(table: string, columns: seq<string>): string {
    "INSERT INTO " + table + " (" + Join(columns, ", ") + ") VALUES ("
      + Join(ValueMarks(|columns|), ", ") + ")"
  }

  /** `DELETE FROM <table> WHERE id = %s` */
  function DeleteById(table: string): string {
    "DELETE FROM " + table + IdCondition + Param
  }

  /** One `key = %s` assignment per key. */
  function Assignments(keys: seq<string>): (r: seq<string>)
    ensures |r| == |keys|
  {
    seq(|keys|, i requires 0 <= i < |keys| => keys[i] + " = " + Param)
  }

  /** The SET clause of a partial update: `key = %s` per key, comma separated. */
  function SetClause(keys: seq<string>): string {
    Join(Assignments(keys), ", ")
  }

  /** `UPDATE <table> SET <clause> WHERE id = %s` */
  function UpdateById(table: string, keys: seq<string>): string {
    "UPDATE " + table + " SET " + SetClause(keys) + IdCondition + Param
  }

  lemma SelectWhereOne(select: string, column: string)
    requires NoPercent(select) && NoPercent(column)
    ensures Placeholders(SelectWhere(select, column)) == 1
  {
    assert SelectWhere(select, column) == (select + " WHERE " + column + " = ") + Param;
    OnePlaceholder(select + " WHERE " + column + " = ");
  }

  lemma DeleteByIdOne(table: string)
    requires NoPercent(table)
    ensures Placeholders(DeleteById(table)) == 1
  {
    OnePlaceholder("DELETE FROM " + table + IdCondition);
  }

  lemma {:induction false} MarksSum(n: nat)
    ensures SumPlaceholders(ValueMarks(n)) == n
  {
    if n > 0 {
      assert ValueMarks(n)[1..] == ValueMarks(n - 1);
      MarksSum(n - 1);
    }
  }

  /** An insert binds one value per column. */
  lemma InsertPlaceholders(table: string, columns: seq<string>)
    requires NoPercent(table)
    requires forall i :: 0 <= i < |columns| ==> NoPercent(columns[i])
    ensures Placeholders(InsertInto(table, columns)) == |columns|
  {
    JoinNoPercent(columns, ", ");
    var head := "INSERT INTO " + table + " (" + Join(columns, ", ") + ") VALUES (";
    NoPercentNoPlaceholder(head);
    assert head[|head| - 1] == '(';
    InertSeparators();
    JoinPlaceholders(ValueMarks(|columns|), ", ");
    MarksSum(|columns|);
    var j := Join(ValueMarks(|columns|), ", ");
    PlaceholdersAppend(head, j);
    PlaceholdersAppend(head + j, ")");
    assert InsertInto(table, columns) == head + j + ")";
  }

  lemma {:induction false} AssignmentsSum(keys: seq<string>)
    ensures SumPlaceholders(Assignments(keys)) == |keys| + SumPlaceholders(keys)
  {
    if |keys| > 0 {
      var k := keys[0];
      PlaceholdersAppend(k, " = " + Param);
      OnePlaceholder(" = ");
      assert Assignments(keys)[0] == k + (" = " + Param);
      assert Assignments(keys)[1..] == Assignments(keys[1..]);
      AssignmentsSum(keys[1..]);
    }
  }

  /** A partial update holds one placeholder per key, one more for the id, and
      one for every `%s` written inside the keys themselves. */
  lemma UpdatePlaceholders(table: string, keys: seq<string>)
    requires NoPercent(table)
    ensures Placeholders(UpdateById(table, keys)) == |keys| + 1 + SumPlaceholders(keys)
  {
    var clause := SetClause(keys);
    InertSeparators();
    JoinPlaceholders(Assignments(keys), ", ");
    AssignmentsSum(keys);
    UpdateHead(table, clause);
    IdTail("UPDATE " + table + " SET " + clause);
  }

  /** The text before the SET clause adds no placeholder. */
  lemma UpdateHead(table: string, clause: string)
    requires NoPercent(table)
    ensures Placeholders("UPDATE " + table + " SET " + clause) == Placeholders(clause)
  {
    var head := "UPDATE " + table + " SET ";
    assert "UPDATE " + table + " SET " + clause == head + clause;
    PlainPrefix(head, clause);
  }

  /** Appending ` WHERE id = %s` adds exactly one placeholder. */
  lemma IdTail(s: string)
    ensures Placeholders(s + IdCondition + Param) == Placeholders(s) + 1
  {
    OnePlaceholder(IdCondition);
    PlaceholdersAppend(s, IdCondition + Param);
    assert s + IdCondition + Param == s + (IdCondition + Param);
  }

  /** A key that itself contains `%s` adds a placeholder with no value behind
      it: the update of `{"name%s": …}` holds three placeholders for the two
      values it binds. */
  lemma PercentKeyUnbalancesUpdate()
    ensures Placeholders(UpdateById("shoes", ["name%s"])) == 3
  {
    UpdatePlaceholders("shoes", ["name%s"]);
    assert "name%s" == "name" + Param;
    OnePlaceholder("name");
  }

  // ---------------------------------------------------------------------------
  // The filters of the shoe listing

  /** One optional filter: its condition text, the query argument it reads,
      and whether the argument must also be numeric. */
  datatype Filter = Filter(condition: string, arg: string, numeric: bool)

  const ShoeFilters: seq<Filter> := [
    Filter("brand_id = " + Param, "brand", false),
    Filter("color = " + Param, "color", false),
    Filter("size = " + Param, "size", false),
    Filter("price >= " + Param, "min_price", true),
    Filter("price <= " + Param, "max_price", true)
  ]

  /** A filter applies when its argument is present and non-empty and, for the
      price bounds, parses as a number. */
  predicate Applies(f: Filter, args: map<string, string>, parsesFloat: string -> bool) {
    f.arg in args && args[f.arg] != "" && (f.numeric ==> parsesFloat(args[f.arg]))
  }

  datatype Where = Where(conditions: seq<string>, params: seq<string>)

  function AddIf(w: Where, f: Filter, args: map<string, string>, parsesFloat: string -> bool): Where {
    if Applies(f, args, parsesFloat) then Where(w.conditions + [f.condition], w.params + [args[f.arg]])
    else w
  }

  /** The `k`-th collected condition comes, with its argument, from a filter
      among `filters` that applies. */
  predicate Explained(w: Where, k: int, filters: seq<Filter>, args: map<string, string>, parsesFloat: string -> bool)
    requires 0 <= k < |w.conditions| == |w.params|
  {
    exists i :: 0 <= i < |filters| && filters[i].condition == w.conditions[k]
      && Applies(filters[i], args, parsesFloat) && w.params[k] == args[filters[i].arg]
  }

  /** Every collected condition is explained by an applying filter. */
  predicate FromApplied(w: Where, filters: seq<Filter>, args: map<string, string>, parsesFloat: string -> bool) {
    && |w.conditions| == |w.params|
    && forall k :: 0 <= k < |w.conditions| ==> Explained(w, k, filters, args, parsesFloat)
  }

  /** Tests the filters in order and collects the condition and the argument
      of each one that applies. */
  function Collect(filters: seq<Filter>, args: map<string, string>, parsesFloat: string -> bool): (w: Where)
    ensures |w.conditions| == |w.params| <= |filters|
    ensures forall i :: 0 <= i < |filters| && Applies(filters[i], args, parsesFloat) ==>
      filters[i].condition in w.conditions
    ensures FromApplied(w, filters, args, parsesFloat)
  {
    if |filters| == 0 then Where([], [])
    else
      var front := filters[..|filters| - 1];
      var w := Collect(front, args, parsesFloat);
      var last := filters[|filters| - 1];
      var w' := AddIf(w, last, args, parsesFloat);
      assert forall i :: 0 <= i < |front| ==> front[i] == filters[i];
      assert |w'.conditions| == |w'.params|;
      assert FromApplied(w', filters, args, parsesFloat) by {
        forall k | 0 <= k < |w'.conditions|
          ensures Explained(w', k, filters, args, parsesFloat)
        {
          if k < |w.conditions| {
            assert w'.conditions[k] == w.conditions[k] && w'.params[k] == w.params[k];
            assert Explained(w, k, front, args, parsesFloat);
            var i :| 0 <= i < |front| && front[i].condition == w.conditions[k]
              && Applies(front[i], args, parsesFloat) && w.params[k] == args[front[i].arg];
            assert filters[i] == front[i];
          } else {
            var n := |filters| - 1;
            assert filters[n].condition == w'.conditions[k] && w'.params[k] == args[filters[n].arg];
          }
        }
      }
      w'
  }

  /** `idx` lists, in strictly increasing order, exactly the filters that
      apply, and the `k`-th collected condition and argument are those of
      filter `idx[k]`: the conditions come in test order, each once. */
  ghost predicate Picks(idx: seq<int>, w: Where, filters: seq<Filter>, args: map<string, string>, parsesFloat: string -> bool) {
    && |idx| == |w.conditions| == |w.params|
    && (forall k :: 0 <= k < |idx| ==>
          && 0 <= idx[k] < |filters|
          && Applies(filters[idx[k]], args, parsesFloat)
          && w.conditions[k] == filters[idx[k]].condition
          && w.params[k] == args[filters[idx[k]].arg])
    && (forall k, l :: 0 <= k < l < |idx| ==> idx[k] < idx[l])
    && (forall i :: 0 <= i < |filters| && Applies(filters[i], args, parsesFloat) ==> i in idx)
  }

  /** The positions of the filters that apply, in test order. */
  ghost function Picked(filters: seq<Filter>, args: map<string, string>, parsesFloat: string -> bool): seq<int> {
    if |filters| == 0 then []
    else
      var n := |filters| - 1;
      Picked(filters[..n], args, parsesFloat) + (if Applies(filters[n], args, parsesFloat) then [n] else [])
  }

  /** The collected conditions are those of the applying filters, in the
      order the filters are tested, each once, each with its own argument. */
  lemma {:induction false} CollectInOrder(filters: seq<Filter>, args: map<string, string>, parsesFloat: string -> bool)
    ensures Picks(Picked(filters, args, parsesFloat), Collect(filters, args, parsesFloat), filters, args, parsesFloat)
  {
    if |filters| > 0 {
      var n := |filters| - 1;
      var front := filters[..n];
      CollectInOrder(front, args, parsesFloat);
      var idx := Picked(front, args, parsesFloat);
      var w := Collect(front, args, parsesFloat);
      assert Collect(filters, args, parsesFloat) == AddIf(w, filters[n], args, parsesFloat);
      if Applies(filters[n], args, parsesFloat) {
        assert Picked(filters, args, parsesFloat) == idx + [n];
        PicksTaken(idx, w, filters, args, parsesFloat);
      } else {
        assert Picked(filters, args, parsesFloat) == idx;
        PicksSkipped(idx, w, filters, args, parsesFloat);
      }
    }
  }

  /** The last filter applies: its position and condition are appended. */
  lemma PicksTaken(idx: seq<int>, w: Where, filters: seq<Filter>, args: map<string, string>, parsesFloat: string -> bool)
    requires |filters| > 0 && Applies(filters[|filters| - 1], args, parsesFloat)
    requires Picks(idx, w, filters[..|filters| - 1], args, parsesFloat)
    ensures Picks(idx + [|filters| - 1], AddIf(w, filters[|filters| - 1], args, parsesFloat), filters, args, parsesFloat)
  {
    var n := |filters| - 1;
    var front := filters[..n];
    var last := filters[n];
    var idx', w' := idx + [n], AddIf(w, last, args, parsesFloat);
    assert w'.conditions == w.conditions + [last.condition];
    assert w'.params == w.params + [args[last.arg]];
    forall k | 0 <= k < |idx'|
      ensures 0 <= idx'[k] < |filters| && Applies(filters[idx'[k]], args, parsesFloat)
      ensures w'.conditions[k] == filters[idx'[k]].condition && w'.params[k] == args[filters[idx'[k]].arg]
    {
      if k < |idx| {
        assert idx'[k] == idx[k] && front[idx[k]] == filters[idx[k]];
      }
    }
    forall k, l | 0 <= k < l < |idx'|
      ensures idx'[k] < idx'[l]
    {
      if l < |idx| {
        assert idx'[k] == idx[k] && idx'[l] == idx[l];
      } else {
        assert idx'[k] == idx[k] < n;
      }
    }
    forall i | 0 <= i < |filters| && Applies(filters[i], args, parsesFloat)
      ensures i in idx'
    {
      if i < n {
        assert front[i] == filters[i];
      }
    }
  }

  /** The last filter does not apply: nothing changes. */
  lemma PicksSkipped(idx: seq<int>, w: Where, filters: seq<Filter>, args: map<string, string>, parsesFloat: string -> bool)
    requires |filters| > 0 && !Applies(filters[|filters| - 1], args, parsesFloat)
    requires Picks(idx, w, filters[..|filters| - 1], args, parsesFloat)
    ensures Picks(idx, AddIf(w, filters[|filters| - 1], args, parsesFloat), filters, args, parsesFloat)
  {
    var n := |filters| - 1;
    var front := filters[..n];
    forall k | 0 <= k < |idx|
      ensures front[idx[k]] == filters[idx[k]]
    {
    }
    forall i | 0 <= i < |filters| && Applies(filters[i], args, parsesFloat)
      ensures i in idx
    {
      assert i < n && front[i] == filters[i];
    }
  }

  /** The filters and parameters `get_shoes` collects, in the order it tests
      them: brand, colour, size, lowest and highest price. */
  function CollectShoeFilters(args: map<string, string>, parsesFloat: string -> bool): Where {
    Collect(ShoeFilters, args, parsesFloat)
  }

  lemma ShoeFiltersDistinct()
    ensures forall i, j :: 0 <= i < j < |ShoeFilters| ==> ShoeFilters[i].condition != ShoeFilters[j].condition
  {
    var c := seq(|ShoeFilters|, i requires 0 <= i < |ShoeFilters| => ShoeFilters[i].condition);
    assert c[0][0] == 'b' && c[1][0] == 'c' && c[2][0] == 's' && c[3][0] == 'p' && c[4][0] == 'p';
    assert c[3][6] == '>' && c[4][6] == '<';
  }

  lemma ShoeFiltersSingle()
    ensures forall i :: 0 <= i < |ShoeFilters| ==> Placeholders(ShoeFilters[i].condition) == 1
  {
    OnePlaceholder("brand_id = ");
    OnePlaceholder("color = ");
    OnePlaceholder("size = ");
    OnePlaceholder("price >= ");
    OnePlaceholder("price <= ");
  }

  /** The five shoe filters test different conditions, each with one placeholder. */
  lemma ShoeFilterFacts()
    ensures forall i, j :: 0 <= i < j < |ShoeFilters| ==> ShoeFilters[i].condition != ShoeFilters[j].condition
    ensures forall i :: 0 <= i < |ShoeFilters| ==> Placeholders(ShoeFilters[i].condition) == 1
  {
    ShoeFiltersDistinct();
    ShoeFiltersSingle();
  }

  /** A condition of the shoe listing is collected exactly when its filter
      applies, and is bound to that filter's argument. */
  lemma ShoeFiltersCollected(args: map<string, string>, parsesFloat: string -> bool)
    ensures var w := CollectShoeFilters(args, parsesFloat);
      forall i :: 0 <= i < |ShoeFilters| ==>
        (ShoeFilters[i].condition in w.conditions <==> Applies(ShoeFilters[i], args, parsesFloat))
  {
    ShoeFilterFacts();
    var w := CollectShoeFilters(args, parsesFloat);
    forall i | 0 <= i < |ShoeFilters| && ShoeFilters[i].condition in w.conditions
      ensures Applies(ShoeFilters[i], args, parsesFloat)
    {
      var k :| 0 <= k < |w.conditions| && w.conditions[k] == ShoeFilters[i].condition;
      assert Explained(w, k, ShoeFilters, args, parsesFloat);
      var j :| 0 <= j < |ShoeFilters| && ShoeFilters[j].condition == w.conditions[k]
        && Applies(ShoeFilters[j], args, parsesFloat);
      assert i == j;
    }
  }

  /** `f"WHERE {' AND '.join(filters)}" if filters else ''` */
  function WhereClause(conditions: seq<string>): (r: string)
    ensures r == "" <==> |conditions| == 0
  {
    if |conditions| > 0 then "WHERE " + Join(conditions, " AND ") else ""
  }

  /** The statement `get_shoes` runs. */
  function ShoeListing(args: map<string, string>, parsesFloat: string -> bool): Statement {
    var w := CollectShoeFilters(args, parsesFloat);
    Statement("SELECT * FROM shoes " + WhereClause(w.conditions),
      seq(|w.params|, i requires 0 <= i < |w.params| => Leaf(Str(w.params[i]))))
  }

  lemma {:induction false} SumOnes(parts: seq<string>)
    requires forall i :: 0 <= i < |parts| ==> Placeholders(parts[i]) == 1
    ensures SumPlaceholders(parts) == |parts|
  {
    if |parts| > 0 {
      SumOnes(parts[1..]);
    }
  }

  /** The shoe listing has no WHERE clause exactly when no filter applies, and
      it binds one value per placeholder. */
  lemma ShoeListingBound(args: map<string, string>, parsesFloat: string -> bool)
    ensures var st := ShoeListing(args, parsesFloat);
      && Bound(st)
      && (st.sql == "SELECT * FROM shoes " <==>
            forall i :: 0 <= i < |ShoeFilters| ==> !Applies(ShoeFilters[i], args, parsesFloat))
  {
    var w := CollectShoeFilters(args, parsesFloat);
    var conds := w.conditions;
    ShoeFilterFacts();
    ShoeFiltersCollected(args, parsesFloat);
    var prefix := "SELECT * FROM shoes ";
    PlainPrefix(prefix, WhereClause(conds));
    if |conds| > 0 {
      forall k | 0 <= k < |conds|
        ensures Placeholders(conds[k]) == 1
      {
        assert Explained(w, k, ShoeFilters, args, parsesFloat);
      }
      InertSeparators();
      JoinPlaceholders(conds, " AND ");
      SumOnes(conds);
      PlainPrefix("WHERE ", Join(conds, " AND "));
      assert |prefix + WhereClause(conds)| > |prefix|;
      assert Explained(w, 0, ShoeFilters, args, parsesFloat);
    } else {
      assert prefix + WhereClause(conds) == prefix;
    }
  }

  // ---------------------------------------------------------------------------
  // Search

  /** `f"%{term}%"`: the term with a LIKE wildcard on each side. The term's own
      `%` and `_` are not escaped, so they act as wildcards too. */
  function LikeTerm(term: string): (r: string)
    ensures |r| == |term| + 2
    ensures r[0] == '%' && r[|r| - 1] == '%' && r[1..|r| - 1] == term
  {
    "%" + term + "%"
  }

  /** The two LIKE tests of the shoe search. */
  const ShoeLikes: seq<string> := ["name LIKE " + Param, "color LIKE " + Param]

  /** `SELECT * FROM shoes WHERE name LIKE %s OR color LIKE %s` */
  function ShoeSearchText(): string {
    SelectFrom("*", "shoes") + " WHERE " + Join(ShoeLikes, " OR ")
  }

  /** `SELECT * FROM brands WHERE name LIKE %s` */
  function BrandSearchText(): string {
    SelectFrom("*", "brands") + " WHERE " + "name LIKE " + Param
  }

  lemma ShoeLikesPlaceholders()
    ensures Placeholders(Join(ShoeLikes, " OR ")) == 2
  {
    OnePlaceholder("name LIKE ");
    OnePlaceholder("color LIKE ");
    InertSeparators();
    JoinPlaceholders(ShoeLikes, " OR ");
    assert SumPlaceholders(ShoeLikes[1..][1..]) == 0;
  }

  lemma ShoeSearchPlaceholders()
    ensures Placeholders(ShoeSearchText()) == 2
  {
    ShoeLikesPlaceholders();
    PlainPrefix(SelectFrom("*", "shoes") + " WHERE ", Join(ShoeLikes, " OR "));
  }

  lemma BrandSearchPlaceholders()
    ensures Placeholders(BrandSearchText()) == 1
  {
    OnePlaceholder(SelectFrom("*", "brands") + " WHERE " + "name LIKE ");
  }

  /** The shoe search binds two values and the brand search one. */
  lemma SearchTextsPlaceholders()
    ensures Placeholders(ShoeSearchText()) == 2
    ensures Placeholders(BrandSearchText()) == 1
  {
    ShoeSearchPlaceholders();
    BrandSearchPlaceholders();
  }
}
