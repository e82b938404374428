/** The API end to end: a routed request passes its gates, reaches its handler,
    and the outcome becomes an HTTP reply. The lemmas here state what holds for
    every route at once: who may write, what a refused request costs, and that
    every statement binds one value per placeholder. */
module Service {
  import opened Strings
  import opened Payload
  import opened Xml
  import opened Http
  import opened Sql
  import opened Validation
  import opened Handlers

  /** What the client receives: the negotiated response of a finished
      handler, or the framework's HTML error page after an exception. */
  function Reply(req: Request, o: Outcome): (r: HttpReply)
    ensures o.Fault? ==> r == HttpReply(500, HtmlContentType, ServerErrorPage)
    ensures o.Done? ==> r.status == o.response.status
    ensures o.Done? ==>
      (r.contentType == XmlContentType <==> "format" in req.args && SpellsXml(req.args["format"]))
    ensures o.Done? && r.contentType == XmlContentType ==> r.body == XmlText(ToXml(o.response.payload, DefaultRoot))
    ensures o.Done? && r.contentType != XmlContentType ==>
      r.contentType == JsonContentType && r.body == JsonOf(o.response.payload)
  {
    match o
    case Done(response, _, _) => FormatResponse(req.args, response.payload, response.status)
    case Fault(_) => HttpReply(500, HtmlContentType, ServerErrorPage)
  }

  // ---------------------------------------------------------------------------
  // Gates

  /** A protected route whose token is refused answers 401 with the message
      of that refusal and sends nothing to the database, whatever the body:
      no `Bearer ` header, an expired token and an undecodable one each get
      their own message. */
  lemma RefusedTokenTouchesNothing(route: Route, req: Request, env: Env)
    requires Protected(route) && TokenGate(req, env).Reject?
    ensures var o := Serve(route, req, env);
      && o.Done? && Statements(o) == []
      && o.response.status == 401
      && o.response.payload in {ErrorMessage(MissingAuthMessage), ErrorMessage(ExpiredMessage), ErrorMessage(InvalidMessage)}
    ensures var header := AuthorizationHeader(req.headers);
      !StartsWith(header, BearerPrefix) ==>
        Serve(route, req, env) == Answer(401, ErrorMessage(MissingAuthMessage))
    ensures var header := AuthorizationHeader(req.headers);
      StartsWith(header, BearerPrefix) && env.decode(header[|BearerPrefix|..]).Expired? ==>
        Serve(route, req, env) == Answer(401, ErrorMessage(ExpiredMessage))
    ensures var header := AuthorizationHeader(req.headers);
      StartsWith(header, BearerPrefix) && env.decode(header[|BearerPrefix|..]).Invalid? ==>
        Serve(route, req, env) == Answer(401, ErrorMessage(InvalidMessage))
  {
  }

  /** The token is checked before the body type: a protected JSON route
      called without an `Authorization` header answers 401, never 415. */
  lemma TokenCheckedBeforeBody(route: Route, req: Request, env: Env)
    requires Protected(route) && NeedsJson(route)
    requires "Authorization" !in req.headers
    ensures Serve(route, req, env) == Answer(401, ErrorMessage(MissingAuthMessage))
  {
  }

  /** Past the token gate, a JSON route refuses a body not declared JSON
      with 415, sending nothing to the database. */
  lemma NonJsonBodyRefused(route: Route, req: Request, env: Env)
    requires NeedsJson(route) && !req.isJson
    requires !Protected(route) || TokenGate(req, env).Admit?
    ensures Serve(route, req, env) == Answer(415, ErrorMessage(NotJsonMessage))
  {
  }

  /** Only a protected route with an accepted token (and, for JSON routes, a
      JSON body) ever writes to the database. */
  lemma WritesNeedAuthentication(route: Route, req: Request, env: Env)
    ensures |Writes(Serve(route, req, env))| > 0 ==>
      Protected(route) && TokenGate(req, env).Admit? && (NeedsJson(route) ==> req.isJson)
  {
  }

  /** A request that passes both gates reaches its handler. */
  lemma PastTheGates(route: Route, req: Request, env: Env)
    requires !Protected(route) || TokenGate(req, env).Admit?
    requires !NeedsJson(route) || req.isJson
    ensures Serve(route, req, env) == Handle(route, req, env)
  {
  }

  /** The routes without `jwt_required` never look at the headers. */
  lemma PublicRoutesIgnoreHeaders(route: Route, req: Request, headers: map<string, string>, env: Env)
    requires !Protected(route)
    ensures Serve(route, req, env) == Serve(route, req.(headers := headers), env)
  {
  }

  // ---------------------------------------------------------------------------
  // Observed behaviour

  /** An XML request to the index gets the welcome message as
      `<response><data><message>…</message></data></response>`. */
  lemma IndexAsXml(req: Request, env: Env)
    requires "format" in req.args && SpellsXml(req.args["format"])
    ensures var r := Reply(req, Serve(Index, req, env));
      && r.status == 200
      && r.contentType == XmlContentType
      && r.body == XmlText(OpenTag(DefaultRoot) + OpenTag(DataName) + OpenTag("message") + Welcome
                           + CloseTag("message") + CloseTag(DataName) + CloseTag(DefaultRoot))
  {
    MessageXml(Welcome);
  }

  /** The XML text of a `{'message': text}` payload. */
  lemma MessageXml(text: string)
    ensures ToXml(Message(text), DefaultRoot)
      == OpenTag(DefaultRoot) + OpenTag(DataName) + OpenTag("message") + text
         + CloseTag("message") + CloseTag(DataName) + CloseTag(DefaultRoot)
  {
    var fs := [Field("message", Leaf(Str(text)))];
    var node := RenderNode("message", Leaf(Str(text)));
    assert seq(|fs|, i requires 0 <= i < |fs| => RenderNode(fs[i].key, fs[i].value)) == [node];
    assert Concat([node]) == node + Concat([]);
    assert RenderContent(Dict(fs)) == node;
    assert RenderContent(Leaf(Str(text))) == text;
    assert node == OpenTag("message") + text + CloseTag("message");
    assert Message(text) == Dict(fs);
    assert RenderNode(DataName, Dict(fs)) == OpenTag(DataName) + node + CloseTag(DataName);
  }

  /** A login whose email matches no user answers 401 `Invalid credentials`
      after one lookup. */
  lemma UnknownUserRefused(req: Request, env: Env)
    requires req.isJson && LoginError(req.body).None?
    requires env.db.fetchOne(LoginQuery(GetOrNull(req.body, "email"))).None?
    ensures Serve(Login, req, env)
      == Done(Response(401, ErrorMessage(BadCredentials)), [LoginQuery(GetOrNull(req.body, "email"))], [])
  {
  }

  /** A shoe body missing fields is refused with the list of errors, the
      missing-fields report first, and nothing is written; unless the price
      it does hold overflows, which raises before the errors are sent. */
  lemma IncompleteShoeRefused(req: Request, env: Env)
    requires TokenGate(req, env).Admit? && req.isJson
    requires !AllPresent(ShoeFields, req.body)
    ensures OverflowAt(req.body, "price", env.parsesFloat) ==>
      Reply(req, Serve(AddShoe, req, env)) == HttpReply(500, HtmlContentType, ServerErrorPage)
    ensures !OverflowAt(req.body, "price", env.parsesFloat) ==>
      var o := Serve(AddShoe, req, env);
      && o.Done? && Statements(o) == []
      && o.response.status == 400
      && o.response.payload.Dict?
      && o.response.payload.fields[0].value.List?
      && o.response.payload.fields[0].value.items[0] == Leaf(Str(MissingMessage(Missing(ShoeFields, req.body))))
  {
  }

  /** A complete shoe whose price is an integer too large for a float is
      answered with the server error page and nothing is written: the
      overflow escapes the numeric check. */
  lemma HugePriceFails(req: Request, env: Env)
    requires TokenGate(req, env).Admit? && req.isJson
    requires AllPresent(ShoeFields, req.body)
    requires GetOrNull(req.body, "price") == Leaf(Int(FloatOverflow))
    ensures Serve(AddShoe, req, env) == Fault([])
    ensures Reply(req, Serve(AddShoe, req, env)) == HttpReply(500, HtmlContentType, ServerErrorPage)
  {
    assert OverflowAt(req.body, "price", env.parsesFloat) by {
      assert "price" in ShoeFields;
    }
  }

  /** A delete is sent and reported as done for every id, even one no row
      has and even 0, which the lookups refuse with 400. */
  lemma DeleteAlwaysReported(id: nat, req: Request, env: Env)
    requires TokenGate(req, env).Admit?
    ensures var o := Serve(DeleteShoe(id), req, env);
      o.Done? && o.response.status == 200 && o.writes == [DeleteQuery(Shoes, id)]
    ensures id == 0 ==> Serve(GetShoe(id), req, env).response.status == 400
  {
  }

  /** A review update with a non-numeric rating writes nothing. */
  lemma BadRatingNotWritten(id: nat, req: Request, env: Env)
    requires NonNumericAt(req.body, "rating", env.parsesFloat)
    ensures Writes(Serve(UpdateReview(id), req, env)) == []
  {
    var o := Serve(UpdateReview(id), req, env);
    if o == Handle(UpdateReview(id), req, env) {
      assert o == UpdateReviewHandler(id, req.body, env);
    }
  }

  // ---------------------------------------------------------------------------
  // Placeholders

  lemma {:induction false} SumZero(parts: seq<string>)
    requires forall i :: 0 <= i < |parts| ==> Placeholders(parts[i]) == 0
    ensures SumPlaceholders(parts) == 0
  {
    if |parts| > 0 {
      SumZero(parts[1..]);
    }
  }

  lemma SelectFromPlain(columns: string, table: string)
    requires NoPercent(columns) && NoPercent(table)
    ensures NoPercent(SelectFrom(columns, table))
  {
  }

  lemma ByIdBound(kind: Kind, id: nat)
    ensures Bound(ByIdQuery(kind, id))
  {
    SelectFromPlain(Columns(kind), Table(kind));
    SelectWhereOne(SelectFrom(Columns(kind), Table(kind)), "id");
  }

  lemma ListBound(kind: Kind)
    ensures Bound(ListQuery(kind))
  {
    SelectFromPlain(Columns(kind), Table(kind));
    NoPercentNoPlaceholder(SelectFrom(Columns(kind), Table(kind)));
  }

  lemma LoginBound(email: Value)
    ensures Bound(LoginQuery(email))
  {
    SelectFromPlain("*", "users");
    SelectWhereOne(SelectFrom("*", "users"), "email");
  }

  lemma InsertBound(kind: Kind, fields: seq<string>, body: seq<Field>)
    requires forall i :: 0 <= i < |fields| ==> NoPercent(fields[i])
    ensures Bound(InsertRow(kind, fields, body))
  {
    InsertPlaceholders(Table(kind), fields);
  }

  lemma FieldListsPlain()
    ensures forall i :: 0 <= i < |ShoeFields| ==> NoPercent(ShoeFields[i])
    ensures forall i :: 0 <= i < |ReviewFields| ==> NoPercent(ReviewFields[i])
  {
  }

  lemma UpdateBound(kind: Kind, body: seq<Field>, id: nat)
    requires PlainKeys(body)
    ensures Bound(UpdateRow(kind, body, id))
  {
    UpdatePlaceholders(Table(kind), Keys(body));
    forall i | 0 <= i < |Keys(body)|
      ensures Placeholders(Keys(body)[i]) == 0
    {
      NoPercentNoPlaceholder(Keys(body)[i]);
    }
    SumZero(Keys(body));
  }

  lemma RenameBound(body: seq<Field>, id: nat)
    ensures Bound(RenameQuery(body, id))
  {
    UpdatePlaceholders(Table(Brands), ["name"]);
    NoPercentNoPlaceholder("name");
  }

  lemma DeleteBound(kind: Writable, id: nat)
    ensures Bound(DeleteQuery(kind, id))
  {
    DeleteByIdOne(Table(kind));
  }

  /** The keys of the body hold no `%` at all: one would either add a
      placeholder or start a conversion the driver refuses. */
  predicate PlainKeys(body: seq<Field>) {
    forall i :: 0 <= i < |body| ==> NoPercent(body[i].key)
  }

  /** Every statement the outcome sends binds one value per placeholder. */
  predicate AllBound(o: Outcome) {
    forall st :: st in Statements(o) ==> Bound(st)
  }

  lemma LoginHandlerBound(body: seq<Field>, env: Env)
    ensures AllBound(LoginHandler(body, env))
  {
    LoginBound(GetOrNull(body, "email"));
  }

  lemma ListShoesHandlerBound(args: map<string, string>, env: Env)
    ensures AllBound(ListShoesHandler(args, env))
  {
    ShoeListingBound(args, env.parsesFloat);
  }

  lemma ListAllHandlerBound(kind: Kind, db: Db)
    ensures AllBound(ListAllHandler(kind, db))
  {
    ListBound(kind);
  }

  lemma GetByIdHandlerBound(kind: Kind, id: nat, db: Db)
    ensures AllBound(GetByIdHandler(kind, id, db))
  {
    ByIdBound(kind, id);
  }

  lemma AddShoeHandlerBound(body: seq<Field>, env: Env)
    ensures AllBound(AddShoeHandler(body, env))
  {
    FieldListsPlain();
    InsertBound(Shoes, ShoeFields, body);
  }

  lemma UpdateShoeHandlerBound(id: nat, body: seq<Field>, env: Env)
    requires PlainKeys(body)
    ensures AllBound(UpdateShoeHandler(id, body, env))
  {
    UpdateBound(Shoes, body, id);
  }

  lemma DeleteHandlerBound(kind: Writable, id: nat)
    ensures AllBound(DeleteHandler(kind, id))
  {
    DeleteBound(kind, id);
  }

  lemma AddBrandHandlerBound(body: seq<Field>, db: Db)
    ensures AllBound(AddBrandHandler(body, db))
  {
    InsertBound(Brands, ["name"], body);
  }

  lemma UpdateBrandHandlerBound(id: nat, body: seq<Field>)
    ensures AllBound(UpdateBrandHandler(id, body))
  {
    RenameBound(body, id);
  }

  lemma AddReviewHandlerBound(body: seq<Field>, env: Env)
    ensures AllBound(AddReviewHandler(body, env))
  {
    FieldListsPlain();
    InsertBound(Reviews, ReviewFields, body);
  }

  lemma UpdateReviewHandlerBound(id: nat, body: seq<Field>, env: Env)
    requires PlainKeys(body)
    ensures AllBound(UpdateReviewHandler(id, body, env))
  {
    UpdateBound(Reviews, body, id);
  }

  lemma SearchHandlerBound(args: map<string, string>, db: Db)
    ensures AllBound(SearchHandler(args, db))
  {
    SearchTextsPlaceholders();
  }

  /** Every statement a handler sends binds one value per placeholder. */
  lemma HandleBound(route: Route, req: Request, env: Env)
    requires PlainKeys(req.body)
    ensures AllBound(Handle(route, req, env))
  {
    match route
    case Index =>
    case Login => LoginHandlerBound(req.body, env);
    case ListShoes => ListShoesHandlerBound(req.args, env);
    case GetShoe(id) => GetByIdHandlerBound(Shoes, id, env.db);
    case AddShoe => AddShoeHandlerBound(req.body, env);
    case UpdateShoe(id) => UpdateShoeHandlerBound(id, req.body, env);
    case DeleteShoe(id) => DeleteHandlerBound(Shoes, id);
    case ListBrands => ListAllHandlerBound(Brands, env.db);
    case GetBrand(id) => GetByIdHandlerBound(Brands, id, env.db);
    case AddBrand => AddBrandHandlerBound(req.body, env.db);
    case UpdateBrand(id) => UpdateBrandHandlerBound(id, req.body);
    case DeleteBrand(id) => DeleteHandlerBound(Brands, id);
    case ListUsers => ListAllHandlerBound(Users, env.db);
    case GetUser(id) => GetByIdHandlerBound(Users, id, env.db);
    case ListReviews => ListAllHandlerBound(Reviews, env.db);
    case GetReview(id) => GetByIdHandlerBound(Reviews, id, env.db);
    case AddReview => AddReviewHandlerBound(req.body, env);
    case UpdateReview(id) => UpdateReviewHandlerBound(id, req.body, env);
    case DeleteReview(id) => DeleteHandlerBound(Reviews, id);
    case Search => SearchHandlerBound(req.args, env.db);
  }

  /** Every statement any route sends binds exactly one value per
      placeholder, provided the body's keys hold no `%` of their own (the
      keys of a partial update are pasted into the SET clause). */
  lemma StatementsBound(route: Route, req: Request, env: Env)
    requires PlainKeys(req.body)
    ensures forall st :: st in Statements(Serve(route, req, env)) ==> Bound(st)
  {
    var o := Serve(route, req, env);
    if o == Handle(route, req, env) {
      HandleBound(route, req, env);
    }
  }

  /** The proviso is needed: a partial shoe update whose one key is
      `name%s` sends a statement with three placeholders and two values. */
  lemma PercentKeyUpdateUnbound(id: nat, req: Request, env: Env)
    requires TokenGate(req, env).Admit? && req.isJson
    requires req.body == [Field("name%s", Leaf(Str("Pegasus")))]
    ensures var o := Serve(UpdateShoe(id), req, env);
      |o.writes| == 1 && !Bound(o.writes[0])
  {
    var o := Serve(UpdateShoe(id), req, env);
    assert o == UpdateShoeHandler(id, req.body, env);
    assert !NonNumericAt(req.body, "price", env.parsesFloat);
    var st := UpdateRow(Shoes, req.body, id);
    assert o.writes == [st];
    assert Keys(req.body) == ["name%s"];
    PercentKeyUnbalancesUpdate();
    assert Placeholders(st.sql) == 3;
    assert |st.params| == 2;
  }
}
