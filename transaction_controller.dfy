/**
 * TransactionController: how the query string of a list or monthly request becomes the
 * arguments of the ledger's read operations. Only that normalisation is modelled; status codes
 * and response formatting are not.
 */
module TransactionController {
  import opened Common
  import opened Js
  import opened TransactionModel
  import opened TransactionService

  /** A query-string value as the query parser produces it: one string, or a repeated key. */
  datatype QueryParam = Str(s: string) | List(items: seq<string>)

  type Query = map<string, QueryParam>

  /** `items.join(",")`. */
  function Joined(items: seq<string>): string
  {
    if |items| == 0 then ""
    else if |items| == 1 then items[0]
    else Joined(items[..|items| - 1]) + "," + items[|items| - 1]
  }

  /** The string JavaScript converts a query value to before reading a number from it. */
  function Stringify(p: QueryParam): string
  {
    match p
    case Str(s) => s
    case List(items) => Joined(items)
  }

  /** A query value is truthy when present and not the empty string (an array always is). */
  predicate Truthy(p: Option<QueryParam>)
  {
    p.Some? && (p.value.List? || p.value.s != "")
  }

  function Param(q: Query, key: string): Option<QueryParam>
  {
    if key in q then Some(q[key]) else None
  }

  /** `p && !isNaN(Number(p)) ? Number(p) : fallback`. */
  function NumberParam(p: Option<QueryParam>, fallback: int): (r: int)
    ensures Truthy(p) && ToNumber(Stringify(p.value)).Some? ==> r == ToNumber(Stringify(p.value)).value
    ensures !(Truthy(p) && ToNumber(Stringify(p.value)).Some?) ==> r == fallback
  {
    if Truthy(p) then
      var n := ToNumber(Stringify(p.value));
      if n.Some? then n.value else fallback
    else fallback
  }

  /** The category filter: only a single string naming one of the categories is kept. */
  function CategoryParam(p: Option<QueryParam>): (r: Option<Category>)
    ensures r.Some? <==> p.Some? && p.value.Str? && (exists c: Category :: CategoryName(c) == p.value.s)
    ensures r.Some? ==> CategoryName(r.value) == p.value.s
  {
    if p.Some? && p.value.Str? then
      var c := ParseCategory(p.value.s);
      if c.Some? then assert CategoryName(c.value) == p.value.s; c else None
    else None
  }

  /** The filters built from the query of a list request. */
  function NormalizeFilters(q: Query): (f: Filters)
    ensures f.page == Some(NumberParam(Param(q, "page"), 1))
    ensures f.limit == Some(NumberParam(Param(q, "limit"), 10))
    ensures f.category == CategoryParam(Param(q, "category"))
    ensures f.sortBy.Some? <==> "sortBy" in q && q["sortBy"].Str? && q["sortBy"].s != ""
    ensures f.sortBy.Some? ==> f.sortBy.value == q["sortBy"].s
    ensures f.sortOrder.Some? <==> f.sortBy.Some?
    ensures f.sortOrder.Some? ==> (f.sortOrder.value == Asc <==> Param(q, "sortOrder") == Some(Str("asc")))
  {
    var sortBy := Param(q, "sortBy");
    var sorted := sortBy.Some? && sortBy.value.Str? && sortBy.value.s != "";
    Filters(
      CategoryParam(Param(q, "category")),
      Some(NumberParam(Param(q, "page"), 1)),
      Some(NumberParam(Param(q, "limit"), 10)),
      if sorted then Some(sortBy.value.s) else None,
      if sorted then Some(if Param(q, "sortOrder") == Some(Str("asc")) then Asc else Desc) else None)
  }

  /** `p ? parseInt(p) : undefined`, with NaN folded into undefined. */
  function IntParam(p: Option<QueryParam>): (r: Option<int>)
    ensures !Truthy(p) ==> r.None?
    ensures Truthy(p) ==> r == ParseInt(Stringify(p.value))
  {
    if Truthy(p) then ParseInt(Stringify(p.value)) else None
  }

  /** What the list endpoint ends up paginating with: page and limit come from the query when
      it gives a non-zero number and are 1 and 10 otherwise, and the sort is newest first
      unless a sort key is given as a single non-empty string. */
  lemma {:induction false} ListOptions(q: Query)
    ensures var o := Options(Some(NormalizeFilters(q)));
            var page := NumberParam(Param(q, "page"), 1);
            var limit := NumberParam(Param(q, "limit"), 10);
            && o.page == (if page != 0 then page else 1)
            && o.limit == (if limit != 0 then limit else 10)
            && o.page != 0 && o.limit != 0
    ensures !("sortBy" in q && q["sortBy"].Str? && q["sortBy"].s != "")
            ==> Options(Some(NormalizeFilters(q))).sortKey == "date" && Options(Some(NormalizeFilters(q))).sortDirection == -1
    ensures ("sortBy" in q && q["sortBy"].Str? && q["sortBy"].s != "")
            ==> Options(Some(NormalizeFilters(q))).sortKey == q["sortBy"].s
                && (Options(Some(NormalizeFilters(q))).sortDirection == 1 <==> Param(q, "sortOrder") == Some(Str("asc")))
  {
    var f := NormalizeFilters(q);
    assert HasSortKey(Some(f)) <==> "sortBy" in q && q["sortBy"].Str? && q["sortBy"].s != "";
  }

  /** A page given as a numeral is that number. */
  lemma {:induction false} NumeralPage(digits: string)
    requires |digits| >= 1 && AllDigits(digits)
    ensures NormalizeFilters(map["page" := Str(digits)]).page == Some(DecimalValue(digits))
  {
    ToNumberOfDigits(digits);
    assert Param(map["page" := Str(digits)], "page") == Some(Str(digits));
  }

  /** A page whose first character after any white space is neither a digit nor a sign is
      not a number and falls back to 1. */
  lemma {:induction false} NonNumericPage(s: string)
    requires var t := TrimEnd(TrimStart(s)); t != [] && !IsDigit(t[0]) && t[0] != '-' && t[0] != '+'
    ensures NormalizeFilters(map["page" := Str(s)]).page == Some(1)
  {
    var t := TrimEnd(TrimStart(s));
    assert !AllDigits(t);
    assert ToNumber(s) == None;
    assert s != "";
    assert Param(map["page" := Str(s)], "page") == Some(Str(s));
  }

  /** A page of "0" passes the controller and is defaulted to 1 by the service. */
  lemma {:induction false} ZeroPageExample()
    ensures NormalizeFilters(map["page" := Str("0")]).page == Some(0)
    ensures Options(Some(NormalizeFilters(map["page" := Str("0")]))).page == 1
  {
    NumberOfString(0);
    assert IntToString(0) == "0";
    var q := map["page" := Str("0")];
    assert Param(q, "page") == Some(Str("0"));
    assert NumberParam(Param(q, "page"), 1) == 0;
    ListOptions(q);
  }

  /** A non-empty value given once in array form reads like the plain string. An array is
      truthy even when its one item is empty, so `[""]` reads as `Number("")`, which is 0. */
  lemma {:induction false} SingleRepeatedKey(s: string, fallback: int)
    ensures s != "" ==> NumberParam(Some(List([s])), fallback) == NumberParam(Some(Str(s)), fallback)
    ensures NumberParam(Some(List([""])), fallback) == 0
  {
    assert Joined([s]) == s;
    assert Joined([""]) == "";
    assert ToNumber("") == Some(0);
  }

  /** A key repeated with two numerals is read as "a,b", which is not a number, so the
      default applies. */
  lemma {:induction false} RepeatedNumeralsFallBack(a: string, b: string, fallback: int)
    requires |a| >= 1 && AllDigits(a) && |b| >= 1 && AllDigits(b)
    ensures NumberParam(Some(List([a, b])), fallback) == fallback
  {
    var s := a + "," + b;
    assert Joined([a, b]) == s by {
      assert [a, b][..1] == [a];
    }
    assert s[0] == a[0] && s[|s| - 1] == b[|b| - 1] && s[|a|] == ',';
    ToNumberNotNumeral(s, |a|);
  }

  /** Only a single string naming a category becomes a filter, and only "asc" sorts ascending. */
  lemma {:induction false} CategoryAndSortExamples()
    ensures NormalizeFilters(map["category" := Str("food")]).category == Some(Food)
    ensures NormalizeFilters(map["category" := Str("rent")]).category == None
    ensures NormalizeFilters(map["category" := List(["food"])]).category == None
    ensures NormalizeFilters(map["sortBy" := Str("amount"), "sortOrder" := Str("ASC")]).sortOrder == Some(Desc)
    ensures NormalizeFilters(map["sortOrder" := Str("asc")]).sortOrder == None
  {
  }

  /** A month or year that starts with a run of decimal digits, and not with `0x`, is read up
      to its first non-digit, so "03" is 3 and "3rd" is 3. */
  lemma {:induction false} LeadingDigitsParam(digits: string, rest: string)
    requires |digits| >= 1 && AllDigits(digits) && !HasHexPrefix(digits + rest)
    requires rest == [] || !IsDigit(rest[0])
    ensures IntParam(Some(Str(digits + rest))) == Some(DecimalValue(digits))
  {
    var s := digits + rest;
    assert s[0] == digits[0];
    assert Truthy(Some(Str(s))) && Stringify(Str(s)) == s;
    ParseIntStopsAtNonDigit(digits, rest);
  }

  /** A month or year written in hexadecimal after `0x` or `0X` is read in base 16, so "0x10"
      is 16. */
  lemma {:induction false} HexParam(x: char, hex: string, rest: string)
    requires x == 'x' || x == 'X'
    requires |hex| >= 1 && AllHexDigits(hex) && (rest == [] || !IsHexDigit(rest[0]))
    ensures IntParam(Some(Str(['0', x] + hex + rest))) == Some(HexValue(hex))
  {
    var s := ['0', x] + hex + rest;
    assert Truthy(Some(Str(s))) && Stringify(Str(s)) == s;
    ParseIntReadsHex(x, hex, rest);
  }

  /** A month `parseInt` cannot read, or no month at all, is left to the service's fallback. */
  lemma {:induction false} MonthParamMissing()
    ensures IntParam(Some(Str("abc"))) == None
    ensures IntParam(Some(Str(""))) == None
    ensures IntParam(None) == None
  {
    assert TrimStart("abc") == "abc";
    assert DigitPrefix("abc") == [];
  }
}
