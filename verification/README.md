# Running Shoe API — route layer model

A Dafny model of the route layer of a small Flask REST API for running shoes,
brands, users and reviews (`app/routes.py`). It covers:

- the response negotiator: `format_response` picks XML when the `format`
  query argument lower-cases to `xml`, and JSON otherwise; `to_xml` with its
  nested `render_node` turns the payload tree into
  `<response><data>…</data></response>`, dict keys becoming elements, list
  entries `<item>` elements and scalars their unescaped `str()` text;
- the two gates: `jwt_required` (a `Bearer ` header whose token decodes) and
  `require_json` (a body declared JSON), in the order the decorators apply
  them;
- the body checks: `validate_shoe_payload`, the inline review checks, the
  login precondition and the brand name check;
- the parameterised statements the handlers send: the listing's optional
  WHERE filters, the partial updates' dynamic SET clause, the LIKE term of the
  search, and the fixed INSERT/SELECT/DELETE texts;
- every handler, as a pure function from a request to an outcome: the
  response handed to `format_response` plus the statements sent, reads and
  writes apart; or an exception, which the framework answers with a 500 page.

The database (`fetch_all`, `fetch_one`, `execute`), `jwt.decode`,
`check_password_hash`, token issuance with its clock, and Python's `float()`
parser for strings are parameters (`Handlers.Env`, `Http.Decoded`,
`parsesFloat`). Everything else is stated concretely: Python truthiness,
`str()` of ints, booleans and `None`, `validate_numeric` on non-strings
(including the `OverflowError` that `float()` raises on an integer of
magnitude at least 2^1024 - 2^970, which `validate_numeric` does not catch),
the status codes and every message text.

Files, one module each: `strings.dfy` (Python string helpers), `payload.dfy`
(the payload tree), `xml.dfy` (the renderer), `xml_events.dfy` (an event-stream
reading of the renderer and a lexer), `http.dfy` (negotiator and gates),
`sql.dfy` (statement texts and placeholder counting), `validation.dfy`,
`handlers.dfy`, `service.dfy` (gates + handlers + reply, and the properties
that hold across all routes).

## Model

| member | source | states |
|---|---|---|
| Xml.RenderNode | app/routes.py:18-27 | every rendered node begins with `<key>` and ends with `</key>` |
| Xml.ToXml | app/routes.py:16-29 | the document begins with `<root><data>` and ends with `</data></root>` |
| XmlEvents.RenderIsSerializedEvents | app/routes.py:18-27 | the text of any node is the serialisation of its start tag, its content's events and its end tag, recursively through dicts and lists |
| XmlEvents.ToXmlIsSerializedEvents | app/routes.py:29 | the document is the serialised event stream root, data element, end of root |
| XmlEvents.DocumentWellNested | app/routes.py:16-29 | the event stream of every document is well nested (each end tag closes the innermost open element, nothing left open) |
| XmlEvents.DictChildren | app/routes.py:19-21 | a dict node has exactly one child element per key, named by the key, in key order |
| XmlEvents.ListChildren | app/routes.py:23-25 | a list node has exactly one `item` child per entry, however many entries |
| XmlEvents.LeafChildren | app/routes.py:27 | a scalar node has no child element |
| XmlEvents.ListAppendRendering | app/routes.py:23-25 | appending an entry to a list appends exactly one `<item>` element after the earlier ones |
| XmlEvents.DictAppendRendering | app/routes.py:19-21 | adding a key to a dict appends exactly one element for it after the earlier ones |
| XmlEvents.ToXmlReadsBack | app/routes.py:16-29 | for keys without `>` or leading `/` and texts without `<`, lexing the document with `Lex` (a minimal tag lexer, more permissive than an XML parser: it accepts spaces in names and bare `&` in text) gives back its event stream, so that reader sees the payload's structure |
| XmlEvents.UnescapedTextBreaksNesting | app/routes.py:27 | scalars are written unescaped: a string `</data>` closes the data element early and the document no longer nests |
| Payload.Truthy | app/routes.py:116 | a value is falsy exactly when it is `None`, `False`, zero, an empty string, an empty dict or an empty list |
| Payload.FloatConversion | app/routes.py:71-76 | `float(value)` overflows exactly on an integer whose magnitude reaches 2^1024 - 2^970; it is refused exactly on `None`, a dict, a list or a string Python cannot parse; anything else converts |
| Payload.ExactIntsConvert | app/routes.py:71-76 | every integer of magnitude at most 2^53 converts |
| Payload.ScalarText | app/routes.py:27 | a string is written verbatim; an integer's text is non-empty and starts with `-` exactly when the integer is negative; `None` and booleans give a non-empty text that opens no tag |
| Payload.IntTextRoundTrip | app/routes.py:27 | the `str()` text of an integer scalar reads back as that integer, sign included |
| Payload.Get | app/routes.py:114-115 | `data.get(key)` finds a value exactly when the key is present, and the value is one stored under it |
| Payload.GetStored | app/routes.py:179 | in a dict with distinct keys `data[key]` is the value stored under that key |
| Http.WantsXmlExactly | app/routes.py:33-34 | XML is chosen exactly when `format` is present and spells `xml` in any letter case; absent means JSON |
| Http.FormatResponse | app/routes.py:32-39 | status passes through; XML body and `application/xml` exactly when `format` spells `xml`, otherwise the JSON of the payload |
| Http.JsonGate | app/routes.py:42-49 | a body not declared JSON is answered 415 `Request body must be JSON`, any other passes |
| Http.BearerToken | app/routes.py:56-58 | the token is everything after `Bearer `, so prefix and token rebuild the header |
| Http.JwtGate | app/routes.py:52-68 | no `Bearer ` prefix: 401 missing-header message without decoding; expired: 401 `Token expired`; invalid: 401 `Invalid token`; only a good decode admits, with its claims |
| Sql.Collect | app/routes.py:139-155 | every condition of an applying filter is collected, and every collected condition comes with its own argument from a filter that applies |
| Sql.CollectInOrder | app/routes.py:139-155 | the collected conditions are those of the applying filters, each exactly once, in the order the filters are tested, each with its own argument |
| Sql.ShoeFiltersCollected | app/routes.py:141-155 | each listing filter's condition is present exactly when its argument is non-empty (and, for prices, numeric) |
| Sql.ShoeFilterFacts | app/routes.py:142-154 | the five listing conditions are distinct and each holds one placeholder |
| Sql.WhereClause | app/routes.py:157 | the WHERE clause is empty exactly when no condition was collected |
| Sql.ShoeListingBound | app/routes.py:139-158 | the listing binds one value per placeholder, and has no WHERE clause exactly when no filter applies |
| Sql.InsertPlaceholders | app/routes.py:193-196 | an insert holds exactly one placeholder per column |
| Sql.UpdatePlaceholders | app/routes.py:211-213 | a partial update holds one placeholder per key, one for the id, plus any `%s` inside the keys |
| Sql.PercentKeyUnbalancesUpdate | app/routes.py:211-213 | a key `name%s` gives the update three placeholders for two values |
| Sql.DeleteByIdOne | app/routes.py:220 | a delete by id holds one placeholder |
| Sql.SelectWhereOne | app/routes.py:166 | a lookup by one column holds one placeholder |
| Sql.LikeTerm | app/routes.py:353 | the LIKE term is the search term with one `%` on each side, nothing else changed |
| Sql.SearchTextsPlaceholders | app/routes.py:354-355 | the shoe search holds two placeholders and the brand search one, matching the values bound |
| Validation.Missing | app/routes.py:176 | the missing fields are exactly the required ones absent from the body, listed in the required order |
| Validation.MissingNoneIff | app/routes.py:176-177 | nothing is missing exactly when every required field is present |
| Validation.ValidateShoePayload | app/routes.py:172-181 | raises exactly when a price is present and its conversion overflows; otherwise valid iff no errors iff (partial or all five fields present) and any price is numeric; there are exactly as many errors as failed checks; a missing-fields report names the missing fields and comes first; the price error appears iff a price is present and not numeric |
| Validation.FullValidIsPartialValid | app/routes.py:175-180 | full and partial validation raise on the same bodies; full validity implies partial validity; partial validation reports only the price error |
| Validation.AddReviewError | app/routes.py:311-316 | a review passes iff all four fields are present and the rating is numeric; raises iff all are present and the rating overflows; missing fields are reported before the rating |
| Validation.UpdateReviewError | app/routes.py:330-333 | an update passes iff the body is non-empty and any rating is numeric; raises iff the body is non-empty and the rating overflows; an empty body is reported first |
| Validation.LoginError | app/routes.py:114-117 | login proceeds iff email and password are both truthy; an absent key always refuses |
| Validation.BrandError | app/routes.py:246-247 | a brand body passes iff it has a `name` key, whatever its value |
| Handlers.IndexHandler | app/routes.py:104-107 | 200 with the welcome message and no statement |
| Handlers.LoginHandler | app/routes.py:110-127 | nothing written; missing credentials 400 with no lookup; one lookup by email; a password check that raises on the row's hash raises; unknown user, empty row or wrong password 401 `Invalid credentials`; a row without `id` or `email` raises; otherwise 200 with token and expiry |
| Handlers.ListShoesHandler | app/routes.py:131-159 | one read, the filtered listing, answered 200 under `shoes` |
| Handlers.ListAllHandler | app/routes.py:225-228 | one read of the whole table, nothing written, 200 with the rows read under the table's name |
| Handlers.GetByIdHandler | app/routes.py:162-169 | status 400 iff the id is below 1, with no lookup; otherwise one lookup; 404 iff no row or an empty row; else 200 with the row under the singular key |
| Handlers.AddShoeHandler | app/routes.py:184-197 | an overflowing price raises with nothing sent; an invalid body is answered 400 with the error list and nothing sent; a valid one is inserted once in column order and answered 201 with the new id |
| Handlers.UpdateShoeHandler | app/routes.py:200-214 | an overflowing price raises; a write happens iff the body is non-empty with a convertible or absent price; a bad price is reported before an empty body; the write assigns every key of the body |
| Handlers.DeleteHandler | app/routes.py:217-221 | one delete by the given id, whatever the id, answered 200 with the kind's deleted message |
| Handlers.AddBrandHandler | app/routes.py:241-249 | with `name`: one insert, answered 201 `Brand added` with the new id; otherwise 400 `Name is required` |
| Handlers.UpdateBrandHandler | app/routes.py:252-260 | only the name is written, iff present; otherwise 400 |
| Handlers.AddReviewHandler | app/routes.py:306-322 | a write happens iff all review fields are present and the rating is numeric, answered 201 `Review added` with the new id; missing fields give 400 with the missing-fields message, a bad rating 400 `Rating must be numeric`, an overflowing rating raises |
| Handlers.UpdateReviewHandler | app/routes.py:325-337 | a write happens iff the body is non-empty with a convertible or absent rating; an empty body gives 400 `No fields provided`, a bad rating 400 `Rating must be numeric`, an overflowing rating raises |
| Handlers.SearchHandler | app/routes.py:347-356 | an absent or empty `q` is answered 400 with no query; otherwise two reads bound to the LIKE term, answered 200 with the shoe rows under `shoes` and the brand rows under `brands` |
| Handlers.Serve | app/routes.py:42-68 | a protected route with a refused token answers with the token gate's own 401 response and no statement; past it, a JSON route with a non-JSON body answers 415; otherwise the handler's outcome |
| Service.Reply | app/routes.py:32-39 | a finished handler's status and negotiated body reach the client: XML as `application/xml` exactly when `format` spells `xml`, otherwise JSON as `application/json`; a raised exception becomes a 500 HTML page |
| Service.RefusedTokenTouchesNothing | app/routes.py:52-68 | a protected route with a refused token answers 401 and sends no statement; no `Bearer ` header gives the missing-header message, an expired token `Token expired`, an undecodable one `Invalid token` |
| Service.TokenCheckedBeforeBody | app/routes.py:184-186 | `jwt_required` wraps `require_json`: no header gives 401, never 415 |
| Service.NonJsonBodyRefused | app/routes.py:42-49 | past the token, a JSON route answers a non-JSON body 415 and sends nothing |
| Service.WritesNeedAuthentication | app/routes.py:184-186 | any write comes from a protected route with an accepted token and, for JSON routes, a JSON body |
| Service.PastTheGates | app/routes.py:42-68 | a request that passes both gates reaches its handler unchanged |
| Service.PublicRoutesIgnoreHeaders | app/routes.py:104-107 | a route without `jwt_required` gives the same outcome whatever the headers |
| Service.IndexAsXml | app/routes.py:104-107 | `/?format=xml` answers 200, `application/xml`, `<response><data><message>…</message></data></response>` |
| Service.MessageXml | app/routes.py:16-29 | the XML text of a `{'message': text}` payload |
| Service.UnknownUserRefused | app/routes.py:119-121 | a login whose email has no user is 401 after exactly one lookup |
| Service.IncompleteShoeRefused | app/routes.py:189-191 | a shoe body missing fields is 400, the missing-fields report first, nothing sent; unless its price overflows, which gives the 500 page |
| Service.HugePriceFails | app/routes.py:184-197 | a complete shoe whose price is the integer 2^1024 - 2^970 gets the 500 page and nothing is written |
| Service.DeleteAlwaysReported | app/routes.py:217-221 | a delete is sent and reported 200 for every id, including 0, which a lookup refuses with 400 |
| Service.BadRatingNotWritten | app/routes.py:332-333 | a review update with a non-numeric rating writes nothing |
| Service.StatementsBound | app/routes.py:79-101 | every statement of every route binds one value per placeholder, provided the body's keys hold no `%` |
| Service.PercentKeyUpdateUnbound | app/routes.py:211-213 | that proviso is needed: a shoe update with key `name%s` sends a statement with more placeholders than values |

## Left out

- The database helpers `get_mysql`, `fetch_all`, `fetch_one` and `execute` are parameters: what they return is arbitrary, and database errors (which would surface as a 500) are not modelled.
- JWT signing and verification, token expiry arithmetic, `check_password_hash` and the clock are parameters (`decode`, `checkPassword`, `issue`); `checkPassword` answers `None` where `check_password_hash` raises (a missing hash or a password that is not a string), and the login then ends in a 500; the claims stored on `request.user` are never read by a handler, so they are not kept.
- `validate_numeric` on a string depends on Python's float grammar, which is the `parsesFloat` parameter (an overlong digit string raises no overflow there: Python gives `inf`); its behaviour on integers (including the overflow), floats, booleans, `None`, dicts and lists is concrete.
- Flask plumbing: routing, `make_response`, `jsonify` (the JSON body is represented by the payload it encodes), header objects (header names are matched case-insensitively by the framework; the model keys them by their canonical spelling), the detection behind `request.is_json` (an input), and the `<int:…>` converter (ids are natural numbers).
- Request bodies that are JSON but not objects (a list, `null`), and bodies that fail to parse, are not modelled: the body is always an object.
- `fetch_all` is taken at its declared type, a list of row dicts. The dict cursor actually returns a tuple, which `render_node` writes as its `str()` text rather than as `item` elements. So the XML of the lists answered by Handlers.ListShoesHandler, Handlers.ListAllHandler and Handlers.SearchHandler is modelled as if those rows came as a list. Their JSON is unaffected.
- Database values of types other than int, str, bool, float and None (Decimal, datetime) are carried as their `str()` text (in XML; Flask's JSON encoder writes dates in the HTTP date format); floats are carried as their `repr` text.
- Strings.Lower: folds ASCII letters only, where Python folds all letters; only the letters of `xml` matter to the negotiator.
- The other files of the repository (application factories, configuration, the standalone script and the tests) are not part of this model.
