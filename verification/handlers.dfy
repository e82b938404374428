/** The route handlers as pure functions from a request to an outcome. The
    database, `jwt.decode`, the password check, token issuance and Python's
    float parser are parameters (`Env`). An outcome records the response the
    handler hands to `format_response` together with the statements it sent
    to the database, lookups and writes apart, so that "nothing was written"
    can be stated. */
module Handlers {
  import opened Payload
  import opened Http
  import opened Sql
  import opened Validation

  /** A database row as the dict cursor returns it. */
  type Row = Object

  /** The three database helpers: `fetch_all`, `fetch_one` (None when no row
      matches) and `execute` (the id of the inserted row). */
  datatype Db = Db(
    fetchAll: Statement -> seq<Row>,
    fetchOne: Statement -> Option<Row>,
    execute: Statement -> int)

  /** A signed token and the ISO text of its expiry instant. */
  datatype Token = Token(token: string, expiresAt: string)

  /** `checkPassword(hash, password)` is `check_password_hash`: whether the
      password matches, or `None` when it raises (a hash or a password that is
      not a string). */
  datatype Env = Env(
    db: Db,
    decode: string -> Decoded,
    checkPassword: (Value, Value) -> Option<bool>,
    issue: (Value, Value) -> Token,
    parsesFloat: string -> bool)

  /** A handler either answers, having sent `lookups` and `writes` in that
      order, or raises after `lookups`, which the framework turns into a 500. */
  datatype Outcome =
    | Done(response: Response, lookups: seq<Statement>, writes: seq<Statement>)
    | Fault(lookups: seq<Statement>)

  function Writes(o: Outcome): seq<Statement> {
    if o.Done? then o.writes else []
  }

  function Statements(o: Outcome): seq<Statement> {
    if o.Done? then o.lookups + o.writes else o.lookups
  }

  /** An answer that sent nothing to the database. */
  function Answer(status: int, payload: Value): Outcome {
    Done(Response(status, payload), [], [])
  }

  // ---------------------------------------------------------------------------
  // Routes and the four tables

  /** The endpoints; the `<int:…>` converter only matches non-negative ids. */
  datatype Route =
    | Index
    | Login
    | ListShoes | GetShoe(id: nat) | AddShoe | UpdateShoe(id: nat) | DeleteShoe(id: nat)
    | ListBrands | GetBrand(id: nat) | AddBrand | UpdateBrand(id: nat) | DeleteBrand(id: nat)
    | ListUsers | GetUser(id: nat)
    | ListReviews | GetReview(id: nat) | AddReview | UpdateReview(id: nat) | DeleteReview(id: nat)
    | Search

  /** Routes behind `jwt_required`. */
  predicate Protected(route: Route) {
    route.AddShoe? || route.UpdateShoe? || route.DeleteShoe?
    || route.AddBrand? || route.UpdateBrand? || route.DeleteBrand?
    || route.ListUsers? || route.GetUser?
    || route.AddReview? || route.UpdateReview? || route.DeleteReview?
  }

  /** Routes behind `require_json`. */
  predicate NeedsJson(route: Route) {
    route.Login? || route.AddShoe? || route.UpdateShoe? || route.AddBrand? || route.UpdateBrand?
    || route.AddReview? || route.UpdateReview?
  }

  datatype Kind = Shoes | Brands | Users | Reviews

  function Table(kind: Kind): (r: string)
    ensures NoPercent(r)
  {
    match kind
    case Shoes => "shoes"
    case Brands => "brands"
    case Users => "users"
    case Reviews => "reviews"
  }

  /** The payload key of one row. */
  function Singular(kind: Kind): string {
    match kind
    case Shoes => "shoe"
    case Brands => "brand"
    case Users => "user"
    case Reviews => "review"
  }

  /** The user queries leave the password hash out. */
  function Columns(kind: Kind): (r: string)
    ensures NoPercent(r)
  {
    if kind == Users then "id, username, email" else "*"
  }

  function InvalidIdMessage(kind: Kind): string {
    match kind
    case Shoes => "Invalid shoe ID"
    case Brands => "Invalid brand ID"
    case Users => "Invalid user ID"
    case Reviews => "Invalid review ID"
  }

  function NotFoundMessage(kind: Kind): string {
    match kind
    case Shoes => "Shoe not found"
    case Brands => "Brand not found"
    case Users => "User not found"
    case Reviews => "Review not found"
  }

  /** The tables that have a delete route. */
  type Writable = k: Kind | k != Users witness Shoes

  function DeletedMessage(kind: Writable): string {
    match kind
    case Shoes => "Shoe deleted"
    case Brands => "Brand deleted"
    case Reviews => "Review deleted"
  }

  function Message(text: string): Value {
    Dict([Field("message", Leaf(Str(text)))])
  }

  function Created(text: string, id: int): Value {
    Dict([Field("message", Leaf(Str(text))), Field("id", Leaf(Int(id)))])
  }

  /** The rows of a `fetch_all`, as the list of dicts it returns. */
  function RowsValue(rows: seq<Row>): (r: Value)
    ensures r.List? && |r.items| == |rows|
    ensures forall i :: 0 <= i < |rows| ==> r.items[i] == Dict(rows[i])
  {
    List(seq(|rows|, i requires 0 <= i < |rows| => Dict(rows[i])))
  }

  /** `{key: rows}` */
  function Listed(key: string, rows: seq<Row>): Value {
    Dict([Field(key, RowsValue(rows))])
  }

  function IdParam(id: nat): seq<Value> {
    [Leaf(Int(id))]
  }

  // ---------------------------------------------------------------------------
  // Handlers

  const Welcome := "Hello WWorld! Welcome to the Running Shoe API."
  const BadCredentials := "Invalid credentials"
  const QueryRequired := "Query parameter q is required"

  /** `index`: the welcome message, with no database statement. */
  function IndexHandler(): (o: Outcome)
    ensures o.Done? && Statements(o) == []
    ensures o.response == Response(200, Message(Welcome))
  {
    Answer(200, Message(Welcome))
  }

  /** `SELECT * FROM users WHERE email = %s` */
  function LoginQuery(email: Value): Statement {
    Statement(SelectWhere(SelectFrom("*", "users"), "email"), [email])
  }

  /** The payload of a successful login. */
  function TokenPayload(t: Token): Value {
    Dict([Field("token", Leaf(Str(t.token))), Field("expires_at", Leaf(Str(t.expiresAt)))])
  }

  /** The looked-up user exists (a non-empty row) and the password check
      succeeds against its stored hash. */
  predicate Accepted(user: Option<Row>, password: Value, env: Env) {
    user.Some? && |user.value| > 0 && env.checkPassword(GetOrNull(user.value, "password_hash"), password) == Some(true)
  }

  /** The user exists and the password check raises on its stored hash. */
  predicate CheckRaises(user: Option<Row>, password: Value, env: Env) {
    user.Some? && |user.value| > 0 && env.checkPassword(GetOrNull(user.value, "password_hash"), password).None?
  }

  /** `login`: both credentials must be truthy; the user is looked up by
      email and must exist with a matching password hash; a token is then
      issued for the row's `id` and `email`. A row without either key, or a
      password check that raises, ends in an exception. Nothing is written. */
  function LoginHandler(body: seq<Field>, env: Env): (o: Outcome)
    ensures Writes(o) == []
    ensures LoginError(body).Some? ==> o == Answer(400, ErrorMessage(CredentialsRequired))
    ensures LoginError(body).None? ==>
      var st := LoginQuery(GetOrNull(body, "email"));
      var user := env.db.fetchOne(st);
      var password := GetOrNull(body, "password");
      && Statements(o) == [st]
      && (CheckRaises(user, password, env) ==> o == Fault([st]))
      && (!Accepted(user, password, env) && !CheckRaises(user, password, env) ==>
            o == Done(Response(401, ErrorMessage(BadCredentials)), [st], []))
      && (Accepted(user, password, env) ==>
            if "id" in Keys(user.value) && "email" in Keys(user.value)
            then o == Done(Response(200, TokenPayload(env.issue(GetOrNull(user.value, "id"), GetOrNull(user.value, "email")))), [st], [])
            else o == Fault([st]))
  {
    match LoginError(body)
    case Some(m) => Answer(400, ErrorMessage(m))
    case None =>
      var password := GetOrNull(body, "password");
      var st := LoginQuery(GetOrNull(body, "email"));
      match env.db.fetchOne(st)
      case None => Done(Response(401, ErrorMessage(BadCredentials)), [st], [])
      case Some(user) =>
        if |user| == 0 then Done(Response(401, ErrorMessage(BadCredentials)), [st], [])
        else
          match env.checkPassword(GetOrNull(user, "password_hash"), password)
          case None => Fault([st])
          case Some(matches) =>
            if !matches then Done(Response(401, ErrorMessage(BadCredentials)), [st], [])
            else
              match (Get(user, "id"), Get(user, "email"))
              case (Some(id), Some(email)) => Done(Response(200, TokenPayload(env.issue(id, email))), [st], [])
              case _ => Fault([st])
  }

  /** `get_shoes`, `get_brands`, `get_users`, `get_reviews` without filters. */
  function ListQuery(kind: Kind): Statement {
    Statement(SelectFrom(Columns(kind), Table(kind)), [])
  }

  /** `get_shoes`: one read with the filters the arguments select. */
  function ListShoesHandler(args: map<string, string>, env: Env): (o: Outcome)
    ensures o.Done? && o.response.status == 200 && o.writes == []
    ensures o.lookups == [ShoeListing(args, env.parsesFloat)]
    ensures o.response.payload == Listed("shoes", env.db.fetchAll(ShoeListing(args, env.parsesFloat)))
  {
    var st := ShoeListing(args, env.parsesFloat);
    Done(Response(200, Listed("shoes", env.db.fetchAll(st))), [st], [])
  }

  /** `get_brands`, `get_users`, `get_reviews`: every row of the table,
      under the table's name. */
  function ListAllHandler(kind: Kind, db: Db): (o: Outcome)
    ensures o.Done? && o.response.status == 200 && o.writes == []
    ensures o.lookups == [ListQuery(kind)]
    ensures o.response.payload == Listed(Table(kind), db.fetchAll(ListQuery(kind)))
  {
    var st := ListQuery(kind);
    Done(Response(200, Listed(Table(kind), db.fetchAll(st))), [st], [])
  }

  /** `SELECT <columns> FROM <table> WHERE id = %s` */
  function ByIdQuery(kind: Kind, id: nat): Statement {
    Statement(SelectWhere(SelectFrom(Columns(kind), Table(kind)), "id"), IdParam(id))
  }

  /** `get_shoe`, `get_brand`, `get_user`, `get_review`: an id below 1 is
      refused before the lookup, a missing or empty row is a 404, and a found
      row is returned under the singular key. */
  function GetByIdHandler(kind: Kind, id: nat, db: Db): (o: Outcome)
    ensures o.Done? && o.writes == []
    ensures o.response.status == 400 <==> id < 1
    ensures id < 1 ==> o == Answer(400, ErrorMessage(InvalidIdMessage(kind)))
    ensures id >= 1 ==> o.lookups == [ByIdQuery(kind, id)]
    ensures id >= 1 ==>
      var row := db.fetchOne(ByIdQuery(kind, id));
      (o.response.status == 404 <==> row.None? || |row.value| == 0)
      && (o.response.status == 404 ==> o.response.payload == ErrorMessage(NotFoundMessage(kind)))
      && (o.response.status != 404 ==> o.response == Response(200, Dict([Field(Singular(kind), Dict(row.value))])))
  {
    if id < 1 then Answer(400, ErrorMessage(InvalidIdMessage(kind)))
    else
      var st := ByIdQuery(kind, id);
      match db.fetchOne(st)
      case None => Done(Response(404, ErrorMessage(NotFoundMessage(kind))), [st], [])
      case Some(row) =>
        if |row| == 0 then Done(Response(404, ErrorMessage(NotFoundMessage(kind))), [st], [])
        else Done(Response(200, Dict([Field(Singular(kind), Dict(row))])), [st], [])
  }

  /** `{'error': errors}` for the shoe validator's list of messages. */
  function ErrorList(errors: seq<string>): Value {
    Dict([Field("error", List(seq(|errors|, i requires 0 <= i < |errors| => Leaf(Str(errors[i])))))])
  }

  /** The values of `fields` in `body`, in the order of `fields`. */
  function Pick(body: seq<Field>, fields: seq<string>): (r: seq<Value>)
    ensures |r| == |fields|
    ensures forall i :: 0 <= i < |fields| ==> r[i] == GetOrNull(body, fields[i])
  {
    seq(|fields|, i requires 0 <= i < |fields| => GetOrNull(body, fields[i]))
  }

  function InsertRow(kind: Kind, fields: seq<string>, body: seq<Field>): Statement {
    Statement(InsertInto(Table(kind), fields), Pick(body, fields))
  }

  /** `UPDATE <table> SET k = %s, … WHERE id = %s` with the body's values
      and the id. */
  function UpdateRow(kind: Kind, body: seq<Field>, id: nat): Statement {
    Statement(UpdateById(Table(kind), Keys(body)), Values(body) + IdParam(id))
  }

  /** `add_shoe`: a body that fails full validation is answered with the
      list of errors and nothing is written; otherwise the five fields are
      inserted in column order and the new id is returned. A price whose
      conversion overflows raises before anything is sent. */
  function AddShoeHandler(body: seq<Field>, env: Env): (o: Outcome)
    ensures o.Fault? <==> OverflowAt(body, "price", env.parsesFloat)
    ensures o.Fault? ==> o == Fault([])
    ensures o.Done? ==> o.lookups == []
    ensures o.Done? ==>
      var v := ValidateShoePayload(body, false, env.parsesFloat).value;
      && (!v.valid ==> o == Answer(400, ErrorList(v.errors)))
      && (v.valid ==>
            var st := InsertRow(Shoes, ShoeFields, body);
            o == Done(Response(201, Created("Shoe added", env.db.execute(st))), [], [st]))
  {
    match ValidateShoePayload(body, false, env.parsesFloat)
    case Overflowed => Fault([])
    case Returned(v) =>
      if !v.valid then Answer(400, ErrorList(v.errors))
      else
        var st := InsertRow(Shoes, ShoeFields, body);
        Done(Response(201, Created("Shoe added", env.db.execute(st))), [], [st])
  }

  /** `update_shoe`: partial validation first, then an empty body is
      refused; otherwise every key of the body is assigned. A price whose
      conversion overflows raises. */
  function UpdateShoeHandler(id: nat, body: seq<Field>, env: Env): (o: Outcome)
    ensures o.Fault? <==> OverflowAt(body, "price", env.parsesFloat)
    ensures o.Fault? ==> o == Fault([])
    ensures o.Done? ==> o.lookups == []
    ensures |Writes(o)| > 0 <==>
      |body| > 0 && !NonNumericAt(body, "price", env.parsesFloat) && !OverflowAt(body, "price", env.parsesFloat)
    ensures |Writes(o)| > 0 ==> o == Done(Response(200, Message("Shoe updated")), [], [UpdateRow(Shoes, body, id)])
    ensures NonNumericAt(body, "price", env.parsesFloat) ==> o == Answer(400, ErrorList([PriceError]))
    ensures |body| == 0 ==> o == Answer(400, ErrorMessage(NoFieldsError))
  {
    FullValidIsPartialValid(body, env.parsesFloat);
    match ValidateShoePayload(body, true, env.parsesFloat)
    case Overflowed => Fault([])
    case Returned(v) =>
      if !v.valid then Answer(400, ErrorList(v.errors))
      else if |body| == 0 then Answer(400, ErrorMessage(NoFieldsError))
      else Done(Response(200, Message("Shoe updated")), [], [UpdateRow(Shoes, body, id)])
  }

  function DeleteQuery(kind: Writable, id: nat): Statement {
    Statement(Sql.DeleteById(Table(kind)), IdParam(id))
  }

  /** `delete_shoe`, `delete_brand`, `delete_review`: the delete is sent
      whatever the id, and success is reported whether or not a row matched. */
  function DeleteHandler(kind: Writable, id: nat): (o: Outcome)
    ensures o.Done? && o.lookups == [] && o.writes == [DeleteQuery(kind, id)]
    ensures o.response == Response(200, Message(DeletedMessage(kind)))
  {
    Done(Response(200, Message(DeletedMessage(kind))), [], [DeleteQuery(kind, id)])
  }

  /** `add_brand`: a body with a `name` key inserts that name. */
  function AddBrandHandler(body: seq<Field>, db: Db): (o: Outcome)
    ensures o.Done? && o.lookups == []
    ensures |o.writes| > 0 <==> "name" in Keys(body)
    ensures "name" !in Keys(body) ==> o == Answer(400, ErrorMessage(NameRequired))
    ensures "name" in Keys(body) ==>
      var st := InsertRow(Brands, ["name"], body);
      o == Done(Response(201, Created("Brand added", db.execute(st))), [], [st])
  {
    match BrandError(body)
    case Some(m) => Answer(400, ErrorMessage(m))
    case None =>
      var st := InsertRow(Brands, ["name"], body);
      Done(Response(201, Created("Brand added", db.execute(st))), [], [st])
  }

  /** `UPDATE brands SET name = %s WHERE id = %s` */
  function RenameQuery(body: seq<Field>, id: nat): Statement {
    Statement(UpdateById(Table(Brands), ["name"]), [GetOrNull(body, "name")] + IdParam(id))
  }

  /** `update_brand`: only the name is ever written, whatever else the body holds. */
  function UpdateBrandHandler(id: nat, body: seq<Field>): (o: Outcome)
    ensures o.Done? && o.lookups == []
    ensures |o.writes| > 0 <==> "name" in Keys(body)
    ensures "name" !in Keys(body) ==> o == Answer(400, ErrorMessage(NameRequired))
    ensures "name" in Keys(body) ==> o == Done(Response(200, Message("Brand updated")), [], [RenameQuery(body, id)])
  {
    match BrandError(body)
    case Some(m) => Answer(400, ErrorMessage(m))
    case None => Done(Response(200, Message("Brand updated")), [], [RenameQuery(body, id)])
  }

  /** `add_review`: all four fields and a numeric rating, then an insert in
      column order. A rating whose conversion overflows raises. */
  function AddReviewHandler(body: seq<Field>, env: Env): (o: Outcome)
    ensures o.Fault? <==> AllPresent(ReviewFields, body) && OverflowAt(body, "rating", env.parsesFloat)
    ensures o.Fault? ==> o == Fault([])
    ensures o.Done? ==> o.lookups == []
    ensures |Writes(o)| > 0 <==> AllPresent(ReviewFields, body) && IsNumeric(GetOrNull(body, "rating"), env.parsesFloat)
    ensures |Writes(o)| > 0 ==>
      var st := InsertRow(Reviews, ReviewFields, body);
      o == Done(Response(201, Created("Review added", env.db.execute(st))), [], [st])
    ensures !AllPresent(ReviewFields, body) ==>
      o == Answer(400, ErrorMessage(MissingMessage(Missing(ReviewFields, body))))
    ensures AllPresent(ReviewFields, body) && NonNumericAt(body, "rating", env.parsesFloat) ==>
      o == Answer(400, ErrorMessage(RatingError))
  {
    match AddReviewError(body, env.parsesFloat)
    case Overflowed => Fault([])
    case Returned(Some(m)) => Answer(400, ErrorMessage(m))
    case Returned(None) =>
      var st := InsertRow(Reviews, ReviewFields, body);
      Done(Response(201, Created("Review added", env.db.execute(st))), [], [st])
  }

  /** `update_review`: a non-empty body with a numeric rating if any. A
      rating whose conversion overflows raises. */
  function UpdateReviewHandler(id: nat, body: seq<Field>, env: Env): (o: Outcome)
    ensures o.Fault? <==> |body| > 0 && OverflowAt(body, "rating", env.parsesFloat)
    ensures o.Fault? ==> o == Fault([])
    ensures o.Done? ==> o.lookups == []
    ensures |Writes(o)| > 0 <==>
      |body| > 0 && !NonNumericAt(body, "rating", env.parsesFloat) && !OverflowAt(body, "rating", env.parsesFloat)
    ensures |Writes(o)| > 0 ==> o == Done(Response(200, Message("Review updated")), [], [UpdateRow(Reviews, body, id)])
    ensures |body| == 0 ==> o == Answer(400, ErrorMessage(NoFieldsError))
    ensures |body| > 0 && NonNumericAt(body, "rating", env.parsesFloat) ==> o == Answer(400, ErrorMessage(RatingError))
  {
    match UpdateReviewError(body, env.parsesFloat)
    case Overflowed => Fault([])
    case Returned(Some(m)) => Answer(400, ErrorMessage(m))
    case Returned(None) => Done(Response(200, Message("Review updated")), [], [UpdateRow(Reviews, body, id)])
  }

  /** `search`: an absent or empty `q` is refused; otherwise the shoes whose
      name or colour and the brands whose name contain the term are listed. */
  function SearchHandler(args: map<string, string>, db: Db): (o: Outcome)
    ensures o.Done? && o.writes == []
    ensures Arg(args, "q", "") == "" <==> o == Answer(400, ErrorMessage(QueryRequired))
    ensures Arg(args, "q", "") != "" ==>
      var like := Leaf(Str(LikeTerm(args["q"])));
      var shoes, brands := Statement(ShoeSearchText(), [like, like]), Statement(BrandSearchText(), [like]);
      && o.lookups == [shoes, brands]
      && o.response == Response(200, Dict([Field("shoes", RowsValue(db.fetchAll(shoes))),
                                           Field("brands", RowsValue(db.fetchAll(brands)))]))
  {
    var term := Arg(args, "q", "");
    if term == "" then Answer(400, ErrorMessage(QueryRequired))
    else
      var like := Leaf(Str(LikeTerm(term)));
      var shoes := Statement(ShoeSearchText(), [like, like]);
      var brands := Statement(BrandSearchText(), [like]);
      var found := Dict([Field("shoes", RowsValue(db.fetchAll(shoes))), Field("brands", RowsValue(db.fetchAll(brands)))]);
      Done(Response(200, found), [shoes, brands], [])
  }

  // ---------------------------------------------------------------------------
  // Dispatch

  /** The handler behind each route, after its gates. */
  function Handle(route: Route, req: Request, env: Env): Outcome {
    match route
    case Index => IndexHandler()
    case Login => LoginHandler(req.body, env)
    case ListShoes => ListShoesHandler(req.args, env)
    case GetShoe(id) => GetByIdHandler(Shoes, id, env.db)
    case AddShoe => AddShoeHandler(req.body, env)
    case UpdateShoe(id) => UpdateShoeHandler(id, req.body, env)
    case DeleteShoe(id) => DeleteHandler(Shoes, id)
    case ListBrands => ListAllHandler(Brands, env.db)
    case GetBrand(id) => GetByIdHandler(Brands, id, env.db)
    case AddBrand => AddBrandHandler(req.body, env.db)
    case UpdateBrand(id) => UpdateBrandHandler(id, req.body)
    case DeleteBrand(id) => DeleteHandler(Brands, id)
    case ListUsers => ListAllHandler(Users, env.db)
    case GetUser(id) => GetByIdHandler(Users, id, env.db)
    case ListReviews => ListAllHandler(Reviews, env.db)
    case GetReview(id) => GetByIdHandler(Reviews, id, env.db)
    case AddReview => AddReviewHandler(req.body, env)
    case UpdateReview(id) => UpdateReviewHandler(id, req.body, env)
    case DeleteReview(id) => DeleteHandler(Reviews, id)
    case Search => SearchHandler(req.args, env.db)
  }

  function TokenGate(req: Request, env: Env): Gate {
    JwtGate(AuthorizationHeader(req.headers), env.decode)
  }

  /** A request with the decorators applied: `jwt_required` is the outer
      decorator, so the token is checked before the body type. */
  function Serve(route: Route, req: Request, env: Env): (o: Outcome)
    ensures Protected(route) && TokenGate(req, env).Reject? ==>
      o == Done(TokenGate(req, env).response, [], [])
    ensures (!Protected(route) || TokenGate(req, env).Admit?) && NeedsJson(route) && !req.isJson ==>
      o == Answer(415, ErrorMessage(NotJsonMessage))
    ensures (!Protected(route) || TokenGate(req, env).Admit?) && (!NeedsJson(route) || req.isJson) ==>
      o == Handle(route, req, env)
  {
    if Protected(route) && TokenGate(req, env).Reject? then
      Done(TokenGate(req, env).response, [], [])
    else if NeedsJson(route) && JsonGate(req.isJson).Some? then
      Done(JsonGate(req.isJson).value, [], [])
    else
      Handle(route, req, env)
  }
}
