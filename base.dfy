/** What every handler shares: the schema-driven request parser, the two
    response builders, the handler outcome, and the loaders that resolve the
    caller's account and the item a request names. */
module Base {
  import opened Common
  import opened ErrorCodes
  import opened Models

  // ---------- Requests ----------

  /** An incoming request: its method, its Content-Type, its query string as
      (name, value) pairs in order, and its body decoded as JSON (None when
      the body is not valid JSON). */
  datatype Request = Request(
    httpMethod: string,
    contentType: string,
    query: seq<(string, string)>,
    body: Option<Json>)

  /** What one of Python's conversions (`str`, `float`, `int`/`long`, `list`)
      does with a value: returns it converted, raises ValueError (which the
      parser catches) or raises TypeError (which nothing catches). */
  datatype CastResult<T> = Cast(value: T) | ValueErr | TypeErr

  /** The conversions themselves, which are Python built-ins and not part of
      this model. */
  datatype Builtins = Builtins(
    toStr: Json -> CastResult<string>,
    toFloat: Json -> CastResult<real>,
    toInt: Json -> CastResult<int>,
    toList: Json -> CastResult<seq<Json>>)

  /** The type named in a schema entry. `int` and `long` coincide. */
  datatype Kind = StrKind | FloatKind | IntKind | ListKind

  datatype Value = VStr(s: string) | VFloat(r: real) | VInt(i: int) | VList(elems: seq<Json>)

  /** One schema entry: the type to convert to, whether the field must be
      present, and an optional check on the converted value. */
  datatype FieldSpec = FieldSpec(kind: Kind, required: bool, validate: Option<Value -> bool>)

  type Schema = map<string, FieldSpec>

  /** Where the arguments come from: the query string of a GET or the JSON
      object of a POST. */
  datatype ArgsDict = QueryArgs(pairs: seq<(string, string)>) | BodyArgs(fields: map<string, Json>)

  /** The first step of parsing: arguments to read, a refusal, or an
      exception (a body that is not a JSON object). */
  datatype Source = Args(dict: ArgsDict) | Refused | Raises

  datatype Parse = Parsed(args: map<string, Value>) | Rejected | Raised

  function ArgsSource(req: Request): Source {
    if req.httpMethod == "GET" then Args(QueryArgs(req.query))
    else if req.httpMethod == "POST" then
      if req.contentType != "application/json" then Refused
      else match req.body
        case Some(JObject(fields)) => Args(BodyArgs(fields))
        case _ => Raises
    else Refused
  }

  /** The distinct argument names the request supplies. */
  function Names(d: ArgsDict): set<string> {
    match d
    case QueryArgs(pairs) => set k | 0 <= k < |pairs| :: pairs[k].0
    case BodyArgs(fields) => fields.Keys
  }

  /** Every value given for `name` in the query string, in order (`getall`). */
  function AllValues(pairs: seq<(string, string)>, name: string): seq<string> {
    if pairs == [] then []
    else (if pairs[0].0 == name then [pairs[0].1] else []) + AllValues(pairs[1..], name)
  }

  lemma {:induction false} AllValuesPresent(pairs: seq<(string, string)>, name: string)
    ensures AllValues(pairs, name) != [] <==> name in Names(QueryArgs(pairs))
  {
    if pairs != [] {
      AllValuesPresent(pairs[1..], name);
      if name in Names(QueryArgs(pairs[1..])) {
        var k :| 0 <= k < |pairs[1..]| && pairs[1..][k].0 == name;
        assert pairs[k + 1].0 == name;
      }
      if name in Names(QueryArgs(pairs)) && pairs[0].0 != name {
        var k :| 0 <= k < |pairs| && pairs[k].0 == name;
        assert pairs[1..][k - 1].0 == name;
      }
    }
  }

  function Lift<T>(c: CastResult<T>, f: T -> Value): CastResult<Value> {
    match c
    case Cast(v) => Cast(f(v))
    case ValueErr => ValueErr
    case TypeErr => TypeErr
  }

  /** `t(value)` for the schema's type `t`. */
  function CastValue(b: Builtins, kind: Kind, j: Json): CastResult<Value> {
    match kind
    case StrKind => Lift(b.toStr(j), s => VStr(s))
    case FloatKind => Lift(b.toFloat(j), r => VFloat(r))
    case IntKind => Lift(b.toInt(j), i => VInt(i))
    case ListKind => Lift(b.toList(j), l => VList(l))
  }

  /** The converted value of a supplied argument. A GET list field takes
      every value given for it; any other GET field converts the last one
      (the dictionary lookup of a multi-valued query string). */
  function Fetch(d: ArgsDict, name: string, kind: Kind, b: Builtins): CastResult<Value>
    requires name in Names(d)
  {
    match d
    case QueryArgs(pairs) =>
      var vs := AllValues(pairs, name);
      if kind == ListKind then Cast(VList(seq(|vs|, i requires 0 <= i < |vs| => JStr(vs[i]))))
      else AllValuesPresent(pairs, name); CastValue(b, kind, JStr(vs[|vs| - 1]))
    case BodyArgs(fields) => CastValue(b, kind, fields[name])
  }

  /** A schema field passes: absent and optional, or present, converted and
      accepted by its check. */
  predicate FieldOk(d: ArgsDict, name: string, spec: FieldSpec, b: Builtins) {
    if name !in Names(d) then !spec.required
    else
      var c := Fetch(d, name, spec.kind, b);
      c.Cast? && (spec.validate.None? || spec.validate.value(c.value))
  }

  /** The arguments parse: every schema field passes and no argument lies
      outside the schema. */
  predicate ArgsAdmissible(d: ArgsDict, schema: Schema, b: Builtins) {
    (forall name :: name in schema ==> FieldOk(d, name, schema[name], b))
    && Names(d) <= schema.Keys
  }

  /** The request parses: it is a GET or a JSON POST with an object body, and
      its arguments parse. */
  predicate Admissible(req: Request, schema: Schema, b: Builtins) {
    ArgsSource(req).Args? && ArgsAdmissible(ArgsSource(req).dict, schema, b)
  }

  /** The parsed arguments: each supplied schema field, converted. */
  function ArgsValues(d: ArgsDict, schema: Schema, b: Builtins): map<string, Value>
    requires ArgsAdmissible(d, schema, b)
  {
    map name | name in schema.Keys * Names(d) :: Fetch(d, name, schema[name].kind, b).value
  }

  function ParsedArgs(req: Request, schema: Schema, b: Builtins): map<string, Value>
    requires Admissible(req, schema, b)
  {
    ArgsValues(ArgsSource(req).dict, schema, b)
  }

  /** A field whose conversion raises TypeError. */
  predicate ArgsMayRaise(d: ArgsDict, schema: Schema, b: Builtins) {
    exists name :: name in schema && name in Names(d) && Fetch(d, name, schema[name].kind, b).TypeErr?
  }

  /** Some step of the parse raises an exception the parser does not catch. */
  predicate MayRaise(req: Request, schema: Schema, b: Builtins) {
    ArgsSource(req).Raises?
    || (ArgsSource(req).Args? && ArgsMayRaise(ArgsSource(req).dict, schema, b))
  }

  /** What the parser does with one schema field. */
  datatype Step = Skip | Take(v: Value) | Fail(raised: bool)

  function FieldStep(d: ArgsDict, name: string, spec: FieldSpec, b: Builtins): (s: Step)
    ensures s.Fail? <==> !FieldOk(d, name, spec, b)
    ensures s.Skip? ==> name !in Names(d)
    ensures s.Take? ==> name in Names(d) && Fetch(d, name, spec.kind, b) == Cast(s.v)
    ensures s.Fail? && s.raised ==> name in Names(d) && Fetch(d, name, spec.kind, b).TypeErr?
  {
    if name !in Names(d) then (if spec.required then Fail(false) else Skip)
    else
      match Fetch(d, name, spec.kind, b)
      case TypeErr => Fail(true)
      case ValueErr => Fail(false)
      case Cast(v) => if spec.validate.Some? && !spec.validate.value(v) then Fail(false) else Take(v)
  }

  /** Sets one inside the other have the same size only when they are equal. */
  lemma SameSizeSubset<T>(a: set<T>, b: set<T>)
    requires a <= b
    ensures |a| == |b| <==> a == b
  {
    if a != b {
      assert !(b <= a);
      var x :| x in b && x !in a;
      assert a <= b - {x};
      assert |b - {x}| == |b| - 1;
      SubsetSize(a, b - {x});
    }
  }

  lemma {:induction false} SubsetSize<T>(a: set<T>, b: set<T>)
    requires a <= b
    ensures |a| <= |b|
    decreases |a|
  {
    if a != {} {
      var x :| x in a;
      SubsetSize(a - {x}, b - {x});
    }
  }

  /** Once every schema field has passed, the arguments parse exactly when
      no name lies outside the schema, which the parser detects by counting. */
  lemma AllFieldsPassed(d: ArgsDict, schema: Schema, b: Builtins, args: map<string, Value>)
    requires forall n :: n in schema ==> FieldOk(d, n, schema[n], b)
    requires args.Keys == schema.Keys * Names(d)
    requires forall n :: n in args ==> Fetch(d, n, schema[n].kind, b) == Cast(args[n])
    ensures |args.Keys| == |Names(d)| <==> ArgsAdmissible(d, schema, b)
    ensures |args.Keys| == |Names(d)| ==> args == ArgsValues(d, schema, b)
  {
    SameSizeSubset(args.Keys, Names(d));
  }

  /** The loop of the parser: walk the schema in an arbitrary order, stop
      at the first field that fails, then refuse extra arguments. */
  method ParseArgs(d: ArgsDict, schema: Schema, b: Builtins) returns (r: Parse)
    ensures r.Parsed? <==> ArgsAdmissible(d, schema, b)
    ensures r.Parsed? ==> r.args == ArgsValues(d, schema, b)
    ensures r.Raised? ==> ArgsMayRaise(d, schema, b)
  {
    var keys := Names(d);
    var args: map<string, Value> := map[];
    var todo := schema.Keys;
    while todo != {}
      invariant todo <= schema.Keys
      invariant forall n :: n in schema && n !in todo ==> FieldOk(d, n, schema[n], b)
      invariant args.Keys == (schema.Keys - todo) * keys
      invariant forall n :: n in args ==> Fetch(d, n, schema[n].kind, b) == Cast(args[n])
      decreases |todo|
    {
      var name :| name in todo;
      todo := todo - {name};
      match FieldStep(d, name, schema[name], b) {
        case Fail(raised) =>
          assert !FieldOk(d, name, schema[name], b);
          return if raised then Raised else Rejected;
        case Skip =>
        case Take(v) =>
          args := args[name := v];
      }
    }
    // No extra argument: as many schema fields were seen as names were sent.
    AllFieldsPassed(d, schema, b, args);
    if |args.Keys| == |keys| {
      r := Parsed(args);
    } else {
      r := Rejected;
    }
  }

  /** Parse the request's arguments against `schema`. */
  method ParseRequest(req: Request, schema: Schema, b: Builtins) returns (r: Parse)
    ensures !(req.httpMethod == "GET" || req.httpMethod == "POST") ==> r == Rejected
    ensures req.httpMethod == "POST" && req.contentType != "application/json" ==> r == Rejected
    ensures r.Parsed? <==> Admissible(req, schema, b)
    ensures r.Parsed? ==> r.args == ParsedArgs(req, schema, b)
    ensures r.Raised? ==> MayRaise(req, schema, b)
    ensures ArgsSource(req).Raises? ==> r == Raised
  {
    var d: ArgsDict;
    if req.httpMethod == "GET" {
      d := QueryArgs(req.query);
    } else if req.httpMethod == "POST" {
      if req.contentType != "application/json" {
        return Rejected;
      }
      match req.body {
        case Some(JObject(fields)) =>
          d := BodyArgs(fields);
        case _ =>
          return Raised;
      }
    } else {
      return Rejected;
    }
    r := ParseArgs(d, schema, b);
  }

  /** A converted value has the type its schema entry names. */
  predicate HasKind(v: Value, kind: Kind) {
    match kind
    case StrKind => v.VStr?
    case FloatKind => v.VFloat?
    case IntKind => v.VInt?
    case ListKind => v.VList?
  }

  /** On success the arguments are exactly the names the request sent, each
      converted to its schema type and accepted by its check; an absent
      optional field is simply not there. */
  lemma ParsedArgsExact(req: Request, schema: Schema, b: Builtins)
    requires Admissible(req, schema, b)
    ensures ParsedArgs(req, schema, b).Keys == Names(ArgsSource(req).dict)
    ensures forall name :: name in schema && schema[name].required ==> name in ParsedArgs(req, schema, b)
    ensures forall name :: name in ParsedArgs(req, schema, b) ==>
      name in schema && HasKind(ParsedArgs(req, schema, b)[name], schema[name].kind)
      && (schema[name].validate.Some? ==> schema[name].validate.value(ParsedArgs(req, schema, b)[name]))
  {
    var d := ArgsSource(req).dict;
    forall name | name in ParsedArgs(req, schema, b)
      ensures HasKind(ParsedArgs(req, schema, b)[name], schema[name].kind)
      ensures schema[name].validate.Some? ==> schema[name].validate.value(ParsedArgs(req, schema, b)[name])
    {
      assert FieldOk(d, name, schema[name], b);
      match schema[name].kind {
        case StrKind =>
        case FloatKind =>
        case IntKind =>
        case ListKind =>
      }
    }
  }

  /** Typed access to a parsed field the schema declares required. */
  function IntField(req: Request, schema: Schema, b: Builtins, name: string): int
    requires Admissible(req, schema, b) && name in schema && schema[name].required
    requires schema[name].kind == IntKind
  {
    ParsedArgsExact(req, schema, b);
    ParsedArgs(req, schema, b)[name].i
  }

  function FloatField(req: Request, schema: Schema, b: Builtins, name: string): real
    requires Admissible(req, schema, b) && name in schema && schema[name].required
    requires schema[name].kind == FloatKind
  {
    ParsedArgsExact(req, schema, b);
    ParsedArgs(req, schema, b)[name].r
  }

  function StrField(req: Request, schema: Schema, b: Builtins, name: string): string
    requires Admissible(req, schema, b) && name in schema && schema[name].required
    requires schema[name].kind == StrKind
  {
    ParsedArgsExact(req, schema, b);
    ParsedArgs(req, schema, b)[name].s
  }

  /** An optional string field: None when the request left it out. */
  function OptStrField(req: Request, schema: Schema, b: Builtins, name: string): Option<string>
    requires Admissible(req, schema, b) && name in schema && schema[name].kind == StrKind
  {
    ParsedArgsExact(req, schema, b);
    if name in ParsedArgs(req, schema, b) then Some(ParsedArgs(req, schema, b)[name].s) else None
  }

  /** An optional list field: None when the request left it out. */
  function OptListField(req: Request, schema: Schema, b: Builtins, name: string): Option<seq<Json>>
    requires Admissible(req, schema, b) && name in schema && schema[name].kind == ListKind
  {
    ParsedArgsExact(req, schema, b);
    if name in ParsedArgs(req, schema, b) then Some(ParsedArgs(req, schema, b)[name].elems) else None
  }

  /** An admissible request never raises. */
  lemma ParseOutcomesDisjoint(req: Request, schema: Schema, b: Builtins)
    ensures Admissible(req, schema, b) ==> !MayRaise(req, schema, b)
  {
  }

  // ---------- Responses ----------

  datatype HttpResponse = HttpResponse(status: int, body: Json)

  const OK: int := 200
  const BAD_REQUEST: int := 400

  /** A 400 response naming the error; a message is included only when one
      is given and it is not empty. */
  function ErrorResponse(code: ErrorCode, message: Option<string>): (r: HttpResponse)
    ensures r.status == BAD_REQUEST && r.body.JObject?
    ensures r.body.fields.Keys == {"status", "error"} && r.body.fields["status"] == JInt(BAD_REQUEST)
    ensures r.body.fields["error"].JObject?
    ensures var e := r.body.fields["error"].fields;
      "status" in e && "error_code" in e
      && e["status"] == JStr(code.Name()) && e["error_code"] == JInt(code.Code())
      && ("message" in e <==> message.Some? && message.value != "")
      && ("message" in e ==> e["message"] == JStr(message.value))
      && e.Keys <= {"status", "error_code", "message"}
  {
    var error := map["status" := JStr(code.Name()), "error_code" := JInt(code.Code())];
    var error' := if message.Some? && message.value != "" then error["message" := JStr(message.value)] else error;
    HttpResponse(BAD_REQUEST, JObject(map["status" := JInt(BAD_REQUEST), "error" := JObject(error')]))
  }

  /** A 200 response: the status plus every payload entry (a payload entry
      named `status` would replace it). */
  function SuccessResponse(payload: map<string, Json>): (r: HttpResponse)
    ensures r.status == OK && r.body.JObject?
    ensures r.body.fields.Keys == payload.Keys + {"status"}
    ensures forall k :: k in payload ==> r.body.fields[k] == payload[k]
    ensures "status" !in payload ==> r.body.fields["status"] == JInt(OK)
  {
    HttpResponse(OK, JObject(map["status" := JInt(OK)] + payload))
  }

  /** How a handler ends: a success with its payload, an error response, or
      an exception nothing catches (the platform then answers with its own
      server error, which is not modelled). */
  datatype Reply<P> = Success(payload: P) | Failure(code: ErrorCode, message: Option<string>) | Crash

  /** What the client receives for a handler's reply: no response of the
      handler's own when it raised; otherwise a 200 exactly for a success,
      carrying every payload entry, and a 400 for a failure, naming the
      error by name and number. */
  function Respond<P>(reply: Reply<P>, encode: P -> map<string, Json>): (r: Option<HttpResponse>)
    ensures r.None? <==> reply.Crash?
    ensures r.Some? ==> r.value.body.JObject? && (r.value.status == OK <==> reply.Success?)
    ensures reply.Success? ==> forall k :: k in encode(reply.payload) ==>
      k in r.value.body.fields && r.value.body.fields[k] == encode(reply.payload)[k]
    ensures reply.Failure? ==>
      r.value.status == BAD_REQUEST && "error" in r.value.body.fields && r.value.body.fields["error"].JObject?
      && var e := r.value.body.fields["error"].fields;
        "status" in e && "error_code" in e
        && e["status"] == JStr(reply.code.Name()) && e["error_code"] == JInt(reply.code.Code())
  {
    match reply
    case Success(p) => Some(SuccessResponse(encode(p)))
    case Failure(code, message) => Some(ErrorResponse(code, message))
    case Crash => None
  }

  /** Two failures that reach the client as the same response carry the same
      error code: the response tells every error apart. */
  lemma ResponseIdentifiesFailure<P>(x: Reply<P>, y: Reply<P>, encode: P -> map<string, Json>)
    requires x.Failure? && y.Failure?
    ensures Respond(x, encode) == Respond(y, encode) ==> x.code == y.code
  {
    if Respond(x, encode) == Respond(y, encode) {
      CodeIdentifiesError(x.code, y.code);
    }
  }

  // ---------- Loading the caller and the item ----------

  /** What the third-party token lookup answers for the request's token:
      a third-party id, one of the two failures the handlers catch, or an
      exception they do not catch (a request without a token header, whose
      `None` the lookup cannot append to its URL, or a failed fetch). */
  datatype AuthResult =
    | Authenticated(thirdPartyId: string)
    | TokenExpired
    | ProviderFailure(content: string)
    | LookupRaised

  /** Why a loader stopped the handler: an error response, or an exception. */
  datatype Halt = Refuse(code: ErrorCode, message: Option<string>) | Abort

  datatype Loaded<T> = Loaded(value: T) | Halted(halt: Halt)

  function Stop<P>(h: Halt): Reply<P> {
    match h
    case Refuse(code, message) => Failure(code, message)
    case Abort => Crash
  }

  /** The failed token lookup as base.py handles it: the expired case is
      reported, but the generic case reads an attribute the exception does
      not have and raises; any other exception passes through. */
  function AuthErrorAsWritten(auth: AuthResult): (h: Halt)
    requires !auth.Authenticated?
  {
    if auth.TokenExpired? then Refuse(FacebookTokenError, None) else Abort
  }

  /** The failed token lookup reported as intended: an expired token and any
      other provider failure each get their own code, the latter with the
      provider's message. */
  function AuthError(auth: AuthResult): (h: Halt)
    requires !auth.Authenticated?
    ensures h.Refuse? <==> !auth.LookupRaised?
    ensures auth.TokenExpired? ==> h == Refuse(FacebookTokenError, None)
    ensures auth.ProviderFailure? ==> h == Refuse(FacebookError, Some(auth.content))
  {
    match auth
    case TokenExpired => Refuse(FacebookTokenError, None)
    case ProviderFailure(content) => Refuse(FacebookError, Some(content))
    case LookupRaised => Abort
  }

  /** The discrepancy: a provider failure crashes the handler as written. */
  lemma ProviderFailureCrashesAsWritten(content: string)
    ensures AuthErrorAsWritten(ProviderFailure(content)) == Abort
    ensures AuthError(ProviderFailure(content)) == Refuse(FacebookError, Some(content))
  {
  }

  predicate RegisteredAs(users: map<UserId, User>, thirdPartyId: string) {
    exists uid :: uid in users && users[uid].thirdPartyId == thirdPartyId
  }

  /** `uid` is an account the token lookup may resolve to. */
  predicate IsCaller(users: map<UserId, User>, auth: AuthResult, uid: UserId) {
    auth.Authenticated? && uid in users && users[uid].thirdPartyId == auth.thirdPartyId
  }

  /** The caller's account: the user whose third-party id the token resolves
      to (any one of them, should there be several). */
  method PopulateUser(db: Datastore, auth: AuthResult) returns (r: Loaded<UserId>)
    ensures !auth.Authenticated? ==> r == Halted(AuthError(auth))
    ensures auth.Authenticated? ==>
      (r.Loaded? <==> RegisteredAs(db.users, auth.thirdPartyId))
      && (r.Halted? ==> r.halt == Refuse(InvalidUser, None))
    ensures r.Loaded? ==> IsCaller(db.users, auth, r.value)
  {
    if !auth.Authenticated? {
      return Halted(AuthError(auth));
    }
    if RegisteredAs(db.users, auth.thirdPartyId) {
      var uid :| uid in db.users && db.users[uid].thirdPartyId == auth.thirdPartyId;
      r := Loaded(uid);
    } else {
      r := Halted(Refuse(InvalidUser, None));
    }
  }

  /** An id some stored item has (ids are never negative). */
  predicate IsItem(items: map<ItemId, Item>, itemId: int) {
    itemId >= 0 && itemId as ItemId in items
  }

  /** The item a request names, which must exist. */
  function PopulateItem(items: map<ItemId, Item>, itemId: int): (r: Loaded<Item>)
    ensures r.Loaded? <==> IsItem(items, itemId)
    ensures r.Loaded? ==> r.value == items[itemId]
    ensures r.Halted? ==> r.halt == Refuse(InvalidItem, None)
  {
    if IsItem(items, itemId) then Loaded(items[itemId]) else Halted(Refuse(InvalidItem, None))
  }

  /** The item a request wants to change: it must exist and belong to the
      caller. */
  function PopulateItemForMutation(items: map<ItemId, Item>, user: UserId, itemId: int): (r: Loaded<Item>)
    ensures r.Loaded? <==> IsItem(items, itemId) && items[itemId].owner == user
    ensures r.Loaded? ==> r.value == items[itemId]
    ensures !IsItem(items, itemId) ==> r == Halted(Refuse(InvalidItem, None))
    ensures IsItem(items, itemId) && items[itemId].owner != user ==> r == Halted(Refuse(UserPermissionError, None))
  {
    match PopulateItem(items, itemId)
    case Halted(h) => Halted(h)
    case Loaded(item) =>
      if item.owner != user then Halted(Refuse(UserPermissionError, None)) else Loaded(item)
  }
}
