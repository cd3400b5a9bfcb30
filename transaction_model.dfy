/**
 * The Transaction schema: the closed category enumeration, the stored record, and what
 * mongoose does with a body before it is stored (casting, required paths, the `date` default).
 */
module TransactionModel {
  import opened Common
  import opened Js

  datatype Category = Travel | Food | Bills | Shopping | Other

  function CategoryName(c: Category): string
  {
    match c
    case Travel => "travel"
    case Food => "food"
    case Bills => "bills"
    case Shopping => "shopping"
    case Other => "other"
  }

  /** The enum check: a string is a category exactly when it is one of the five names. */
  function ParseCategory(s: string): (r: Option<Category>)
    ensures r.Some? ==> CategoryName(r.value) == s
    ensures r.None? ==> forall c: Category :: CategoryName(c) != s
  {
    if s == "travel" then Some(Travel)
    else if s == "food" then Some(Food)
    else if s == "bills" then Some(Bills)
    else if s == "shopping" then Some(Shopping)
    else if s == "other" then Some(Other)
    else None
  }

  lemma {:induction false} CategoryRoundTrip(c: Category)
    ensures ParseCategory(CategoryName(c)) == Some(c)
  {
  }

  /** A stored transaction (timestamps are not modelled). */
  datatype Transaction = Transaction(
    user: UserId,
    amount: int,
    category: Category,
    description: Option<string>,
    date: int)

  /** A request body: field name to value. */
  type Fields = map<string, Value>

  /** Cast to a Number path: numbers pass, strings go through `Number`, the empty string fails. */
  function CastNumber(v: Value): (r: Option<int>)
    ensures r.Some? ==> NumberOf(v) == r
    ensures r.None? <==> v == Text("") || NumberOf(v).None?
  {
    match v
    case Num(n) => Some(n)
    case Text(s) => if s == "" then None else ToNumber(s)
  }

  /** Cast to a String path: numbers are printed in decimal. */
  function CastString(v: Value): string
  {
    match v
    case Text(s) => s
    case Num(n) => IntToString(n)
  }

  function CastCategory(v: Value): Option<Category>
  {
    ParseCategory(CastString(v))
  }

  /** Cast to a Date path: numbers are epoch milliseconds, strings are parsed by `parseDate`,
      and the empty string fails like a missing required date. */
  function CastDate(v: Value, parseDate: string -> Option<int>): (r: Option<int>)
    ensures v.Num? ==> r == Some(v.n)
    ensures v == Text("") ==> r.None?
    ensures v.Text? && v.s != "" ==> r == parseDate(v.s)
  {
    match v
    case Num(n) => Some(n)
    case Text(s) => if s == "" then None else parseDate(s)
  }

  /** The paths of a patch whose values cannot be cast to the path's type (absent paths pass). */
  function PatchErrors(fields: Fields, parseDate: string -> Option<int>): set<string>
  {
    (if "amount" in fields && CastNumber(fields["amount"]).None? then {"amount"} else {})
    + (if "category" in fields && CastCategory(fields["category"]).None? then {"category"} else {})
    + (if "date" in fields && CastDate(fields["date"], parseDate).None? then {"date"} else {})
  }

  /** The paths a new document fails on: the required paths `user`, `category` and `amount`
      must be present, and every present path must cast. */
  function CreateErrors(user: Option<UserId>, fields: Fields, parseDate: string -> Option<int>): set<string>
  {
    PatchErrors(fields, parseDate)
    + (if user.None? then {"user"} else {})
    + (if "amount" !in fields then {"amount"} else {})
    + (if "category" !in fields then {"category"} else {})
  }

  /** The document `Transaction.create` stores for a body: the paths modelled here are
      `amount`, `category`, `description` and `date`, and `date` defaults to `now`; other
      paths of the body are not read. */
  function Cast(user: Option<UserId>, fields: Fields, now: int, parseDate: string -> Option<int>): (r: Result<Transaction>)
    ensures r.Err? <==> CreateErrors(user, fields, parseDate) != {}
    ensures r.Err? ==> r.error == ValidationFailed(CreateErrors(user, fields, parseDate))
    ensures r.Ok? ==> Some(r.value.user) == user
    ensures r.Ok? ==> "amount" in fields && NumberOf(fields["amount"]) == Some(r.value.amount)
    ensures r.Ok? ==> "category" in fields && CastString(fields["category"]) == CategoryName(r.value.category)
    ensures r.Ok? ==> r.value.date == if "date" in fields then CastDate(fields["date"], parseDate).value else now
    ensures r.Ok? ==> r.value.description == if "description" in fields then Some(CastString(fields["description"])) else None
  {
    var errors := CreateErrors(user, fields, parseDate);
    if errors != {} then Err(ValidationFailed(errors))
    else
      assert "amount" !in errors && "category" !in errors && "date" !in errors;
      Ok(Transaction(
        user.value,
        CastNumber(fields["amount"]).value,
        CastCategory(fields["category"]).value,
        if "description" in fields then Some(CastString(fields["description"])) else None,
        if "date" in fields then CastDate(fields["date"], parseDate).value else now))
  }

  /** `findOneAndUpdate(..., data, {runValidators: true})`: the paths present in the patch are
      cast and validated and replace the stored ones; the others, and the owner, are kept. */
  function ApplyPatch(t: Transaction, fields: Fields, parseDate: string -> Option<int>): (r: Result<Transaction>)
    ensures r.Err? <==> PatchErrors(fields, parseDate) != {}
    ensures r.Err? ==> r.error == ValidationFailed(PatchErrors(fields, parseDate))
    ensures r.Ok? ==> r.value.user == t.user
    ensures r.Ok? ==> r.value.amount == if "amount" in fields then NumberOf(fields["amount"]).value else t.amount
    ensures r.Ok? ==> "category" in fields ==> CastString(fields["category"]) == CategoryName(r.value.category)
    ensures r.Ok? ==> "category" !in fields ==> r.value.category == t.category
    ensures r.Ok? ==> r.value.description == if "description" in fields then Some(CastString(fields["description"])) else t.description
    ensures r.Ok? ==> r.value.date == if "date" in fields then CastDate(fields["date"], parseDate).value else t.date
  {
    var errors := PatchErrors(fields, parseDate);
    if errors != {} then Err(ValidationFailed(errors))
    else
      assert "amount" !in errors && "category" !in errors && "date" !in errors;
      Ok(Transaction(
        t.user,
        if "amount" in fields then CastNumber(fields["amount"]).value else t.amount,
        if "category" in fields then CastCategory(fields["category"]).value else t.category,
        if "description" in fields then Some(CastString(fields["description"])) else t.description,
        if "date" in fields then CastDate(fields["date"], parseDate).value else t.date))
  }

  /** `user`, `amount` and `category` are required: a body missing one is refused. */
  lemma {:induction false} RequiredPaths(user: Option<UserId>, fields: Fields, now: int, parseDate: string -> Option<int>)
    ensures user.None? ==> Cast(user, fields, now, parseDate).Err?
    ensures "amount" !in fields ==> Cast(user, fields, now, parseDate).Err?
    ensures "category" !in fields ==> Cast(user, fields, now, parseDate).Err?
  {
  }

  /** `description` is optional and `date` defaults to now: a body with just an owner, a number
      and a category name is accepted, whatever the number's sign. */
  lemma {:induction false} MinimalBodyAccepted(user: UserId, amount: int, c: Category, now: int, parseDate: string -> Option<int>)
    ensures Cast(Some(user), map["amount" := Num(amount), "category" := Text(CategoryName(c))], now, parseDate)
      == Ok(Transaction(user, amount, c, None, now))
  {
    var fields := map["amount" := Num(amount), "category" := Text(CategoryName(c))];
    assert CreateErrors(Some(user), fields, parseDate) == {};
  }

  /** The schema puts no sign or range constraint on `amount`: changing it to any other number
      does not change whether a body is accepted. */
  lemma {:induction false} AmountUnconstrained(user: Option<UserId>, fields: Fields, a: int, b: int, now: int, parseDate: string -> Option<int>)
    ensures Cast(user, fields["amount" := Num(a)], now, parseDate).Ok?
        <==> Cast(user, fields["amount" := Num(b)], now, parseDate).Ok?
  {
    assert CreateErrors(user, fields["amount" := Num(a)], parseDate) == CreateErrors(user, fields["amount" := Num(b)], parseDate);
  }

  /** A category outside the enumeration is refused, on create and on update. */
  lemma {:induction false} CategoryOutsideEnumRefused(user: Option<UserId>, t: Transaction, fields: Fields, now: int, parseDate: string -> Option<int>)
    requires "category" in fields && forall c: Category :: CategoryName(c) != CastString(fields["category"])
    ensures Cast(user, fields, now, parseDate).Err?
    ensures ApplyPatch(t, fields, parseDate).Err?
  {
    assert "category" in PatchErrors(fields, parseDate);
  }
}
