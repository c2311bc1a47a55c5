/** What the route handlers under app/api share: requests, responses and the bearer token. */
module Http {
  import opened Wrappers
  import opened Text
  import Errors
  import Fitness

  /** An upstream JSON document, relayed without being looked into. */
  type Payload = string

  /** A JSON value of a request body field; objects and arrays are not looked into. */
  datatype JsValue = JsString(s: string) | JsNumber(n: int) | JsBool(b: bool) | JsNull | JsObject | JsArray

  /** JavaScript truthiness of a field; a missing field (`undefined`) is falsy. */
  predicate JsTruthy(v: Option<JsValue>) {
    match v
    case None => false
    case Some(JsString(s)) => s != ""
    case Some(JsNumber(n)) => n != 0
    case Some(JsBool(b)) => b
    case Some(JsNull) => false
    case Some(JsObject) => true
    case Some(JsArray) => true
  }

  /**
   * `await request.json()` followed by destructuring: either the error it throws (bad JSON,
   * a `null` body) or the body's fields.
   */
  datatype RequestBody = Malformed(error: Errors.Thrown) | Fields(fields: map<string, JsValue>)

  function FieldOf(fields: map<string, JsValue>, key: string): Option<JsValue> {
    if key in fields then Some(fields[key]) else None
  }

  datatype Request = Request(
    verb: string,       // the HTTP method
    authorization: Option<string>,       // the `authorization` header
    query: seq<(string, string)>,        // decoded search parameters, in order
    body: RequestBody
  )

  datatype ResponseBody = Message(text: string) | TokenReply(token: string) | UserReply(user: Payload) | Relay(data: Payload)

  datatype Response = Response(status: int, body: ResponseBody)

  /** A route's response together with the upstream call it made, if any. */
  datatype Handled<C> = Handled(response: Response, call: Option<C>)

  /** `auth?.split(' ')[1]`: the second space-separated word; the scheme is not checked. */
  function BearerToken(authorization: Option<string>): (t: Option<string>)
    ensures authorization.None? ==> t.None?
  {
    match authorization
    case None => None
    case Some(a) =>
      var words := Split(a, ' ');
      if |words| > 1 then Some(words[1]) else None
  }

  /** The token is usable by the route (`if (!token)` fails otherwise). */
  predicate HasToken(authorization: Option<string>) {
    var t := BearerToken(authorization);
    t.Some? && t.value != ""
  }

  /** A token is present but `verifyToken` refuses it. */
  predicate TokenRefused(req: Request, decode: Fitness.PayloadDecoder, now: int) {
    HasToken(req.authorization) && Fitness.VerifyToken(BearerToken(req.authorization).value, decode, now).None?
  }

  /** Any one-word scheme followed by a space and a space-free token yields that token. */
  lemma BearerTokenOf(scheme: string, token: string)
    requires ' ' !in scheme && ' ' !in token
    ensures BearerToken(Some(scheme + " " + token)) == Some(token)
  {
    var parts := [scheme, token];
    assert Join(parts, ' ') == scheme + " " + token by {
      assert parts[1..] == [token];
    }
    SplitJoin(parts, ' ');
  }

  /** A bare scheme, an empty header and a scheme with an empty token carry no token. */
  lemma NoBearerToken()
    ensures !HasToken(Some("Bearer"))
    ensures !HasToken(Some(""))
    ensures !HasToken(Some("Bearer "))
    ensures !HasToken(None)
  {
    SplitFree("Bearer", ' ');
    SplitFree("", ' ');
    SplitPrefix("Bearer", ' ', "");
  }

  const MethodNotAllowed := Response(405, Message("Method not allowed"))
  const MissingToken := Response(401, Message("Отсутствует Authorization токен"))
  const InvalidToken := Response(401, Message("Невалидный токен"))
  const MissingCourseId := Response(400, Message("ID курса должен быть указан"))
  const MissingCredentials := Response(400, Message("Email и пароль обязательны"))

  /** Both `email` and `password` are truthy fields of the body. */
  predicate HasCredentials(body: RequestBody) {
    body.Fields? && JsTruthy(FieldOf(body.fields, "email")) && JsTruthy(FieldOf(body.fields, "password"))
  }
}

/** GET /api/progress (app/api/progress/route.ts). */
module ProgressRoute {
  import opened Wrappers
  import opened Errors
  import opened Fitness
  import opened Http
  import Text

  datatype ProgressCall =
    | OneWorkout(userId: string, courseId: string, workoutId: string, token: string)
    | WholeCourse(userId: string, courseId: string, token: string)

  /** Every check before the upstream call passes. */
  predicate Admitted(req: Request, decode: PayloadDecoder, now: int) {
    && req.verb == "GET"
    && HasToken(req.authorization)
    && VerifyToken(BearerToken(req.authorization).value, decode, now).Some?
    && Truthy(Text.Lookup(req.query, "courseId"))
  }

  /** `GET(request)`; `reply` is what the selected progress request receives. */
  function Get(req: Request, decode: PayloadDecoder, now: int, reply: Reply<Payload>): (h: Handled<ProgressCall>)
    ensures req.verb != "GET" ==> h == Handled(MethodNotAllowed, None)
    ensures req.verb == "GET" && !HasToken(req.authorization) ==> h == Handled(MissingToken, None)
    ensures req.verb == "GET" && TokenRefused(req, decode, now) ==> h == Handled(InvalidToken, None)
    ensures (req.verb == "GET" && HasToken(req.authorization)
             && VerifyToken(BearerToken(req.authorization).value, decode, now).Some?
             && !Truthy(Text.Lookup(req.query, "courseId"))) ==> h == Handled(MissingCourseId, None)
    // the upstream is asked exactly when every check passes
    ensures h.call.Some? <==> Admitted(req, decode, now)
    ensures h.call.Some? ==> (h.call.value.OneWorkout? <==> Truthy(Text.Lookup(req.query, "workoutId")))
    ensures h.call.Some? ==> h.call.value.courseId == Text.Lookup(req.query, "courseId").value
    // success relays the upstream body unchanged; any failure is a 500 with its message
    ensures h.response.status == 200 <==> h.call.Some? && reply.Success?
    ensures h.response.status == 200 ==> h.response.body == Relay(reply.data)
    ensures h.call.Some? && !reply.Success? ==>
      h.response.status == 500 && h.response.body.Message?
    // a non-OK reply: the selected wrapper's thrown message, with that wrapper's own fallback
    ensures h.call.Some? && reply.Failure? ==>
      h.response == Response(500, Message(FailureMessage(reply.body,
        FailureFallback(if h.call.value.OneWorkout? then WorkoutProgress else AllWorkoutsProgress))))
    // a network failure: its message if it is an Error, else the route's own fallback
    ensures h.call.Some? && reply.NetworkFailure? ==>
      h.response == Response(500, Message(MessageOr(reply.error, "Ошибка получения прогресса")))
    ensures h.response.status in {200, 400, 401, 405, 500}
  {
    if req.verb != "GET" then Handled(MethodNotAllowed, None)
    else if !HasToken(req.authorization) then Handled(MissingToken, None)
    else
      var token := BearerToken(req.authorization).value;
      match VerifyToken(token, decode, now)
      case None => Handled(InvalidToken, None)
      case Some(decoded) =>
        var courseId := Text.Lookup(req.query, "courseId");
        var workoutId := Text.Lookup(req.query, "workoutId");
        if !Truthy(courseId) then Handled(MissingCourseId, None)
        else
          var call := if Truthy(workoutId)
            then OneWorkout(decoded.id, courseId.value, workoutId.value, token)
            else WholeCourse(decoded.id, courseId.value, token);
          var result := if call.OneWorkout?
            then GuardedCallResult(GetWorkoutProgress, Some(token), reply)
            else GuardedCallResult(GetAllWorkoutsProgress, Some(token), reply);
          match result
          case Ok(progress) => Handled(Response(200, Relay(progress)), Some(call))
          case Err(e) => Handled(Response(500, Message(MessageOr(e, "Ошибка получения прогресса"))), Some(call))
  }

  /** A non-OK upstream reply reaches the client as a 500 carrying the upstream message. */
  lemma UpstreamMessageRelayed(req: Request, decode: PayloadDecoder, now: int, m: string)
    requires Admitted(req, decode, now) && m != ""
    ensures Get(req, decode, now, Failure(Parsed(Some(m)))).response == Response(500, Message(m))
  {
  }
}

/** POST /api/courses/add (app/api/courses/add/route.ts). */
module CoursesAddRoute {
  import opened Wrappers
  import opened Errors
  import opened Fitness
  import opened Http

  datatype AddCall = AddCall(userId: string, courseId: JsValue, token: string)

  /** The checks on the request headers pass (the body is read afterwards). */
  predicate Authorized(req: Request, decode: PayloadDecoder, now: int) {
    && req.verb == "POST"
    && HasToken(req.authorization)
    && VerifyToken(BearerToken(req.authorization).value, decode, now).Some?
  }

  const Added := Response(200, Message("Курс успешно добавлен!"))

  /** `POST(request)`; `reply` is what the add-course request receives. */
  function Post(req: Request, decode: PayloadDecoder, now: int, reply: Reply<Payload>): (h: Handled<AddCall>)
    ensures req.verb != "POST" ==> h == Handled(MethodNotAllowed, None)
    ensures req.verb == "POST" && !HasToken(req.authorization) ==> h == Handled(MissingToken, None)
    ensures req.verb == "POST" && TokenRefused(req, decode, now) ==> h == Handled(InvalidToken, None)
    ensures Authorized(req, decode, now) && req.body.Malformed? ==>
      h == Handled(Response(500, Message(MessageOr(req.body.error, "Ошибка добавления курса"))), None)
    ensures Authorized(req, decode, now) && req.body.Fields? && !JsTruthy(FieldOf(req.body.fields, "courseId")) ==>
      h == Handled(MissingCourseId, None)
    ensures h.call.Some? <==>
      Authorized(req, decode, now) && req.body.Fields? && JsTruthy(FieldOf(req.body.fields, "courseId"))
    // success answers with a fixed message, whatever the upstream said
    ensures h.response.status == 200 <==> h.call.Some? && reply.Success?
    ensures h.response.status == 200 ==> h.response == Added
    // a failed upstream call is a 500 carrying the thrown Error's message
    ensures h.call.Some? && reply.Failure? ==>
      h.response == Response(500, Message(FailureMessage(reply.body, "Ошибка добавления курса")))
    ensures h.call.Some? && reply.NetworkFailure? ==>
      h.response == Response(500, Message(MessageOr(reply.error, "Ошибка добавления курса")))
    ensures h.response.status in {200, 400, 401, 405, 500}
  {
    if req.verb != "POST" then Handled(MethodNotAllowed, None)
    else if !HasToken(req.authorization) then Handled(MissingToken, None)
    else
      var token := BearerToken(req.authorization).value;
      match VerifyToken(token, decode, now)
      case None => Handled(InvalidToken, None)
      case Some(decoded) =>
        match req.body
        case Malformed(e) => Handled(Response(500, Message(MessageOr(e, "Ошибка добавления курса"))), None)
        case Fields(fields) =>
          var courseId := FieldOf(fields, "courseId");
          if !JsTruthy(courseId) then Handled(MissingCourseId, None)
          else
            var call := AddCall(decoded.id, courseId.value, token);
            match GuardedCallResult(AddCourseToUser, Some(token), reply)
            case Ok(_) => Handled(Added, Some(call))
            case Err(e) => Handled(Response(500, Message(MessageOr(e, "Ошибка добавления курса"))), Some(call))
  }
}

/** POST /api/auth/login (app/api/auth/login/route.ts). */
module LoginRoute {
  import opened Wrappers
  import opened Errors
  import opened Fitness
  import opened Http

  datatype LoginCall = LoginCall(email: JsValue, password: JsValue)

  /** `POST(request)`; `reply` is what the upstream login request receives (the token). */
  function Post(req: Request, reply: Reply<string>): (h: Handled<LoginCall>)
    ensures req.verb != "POST" ==> h == Handled(MethodNotAllowed, None)
    ensures req.verb == "POST" && req.body.Fields? && !HasCredentials(req.body) ==> h == Handled(MissingCredentials, None)
    ensures h.call.Some? <==> req.verb == "POST" && HasCredentials(req.body)
    ensures h.response.status == 200 <==> h.call.Some? && reply.Success?
    ensures h.response.status == 200 ==> h.response.body == TokenReply(reply.data)
    // every failure, a malformed body included, is a 400 (never a 500)
    ensures req.verb == "POST" && h.response.status != 200 ==> h.response.status == 400 && h.response.body.Message?
    ensures req.verb == "POST" && req.body.Malformed? ==>
      h.response == Response(400, Message(MessageOr(req.body.error, "Ошибка входа")))
    // a failed upstream login is a 400 carrying the thrown Error's message
    ensures h.call.Some? && reply.Failure? ==>
      h.response == Response(400, Message(FailureMessage(reply.body, "Ошибка входа")))
    ensures h.call.Some? && reply.NetworkFailure? ==>
      h.response == Response(400, Message(MessageOr(reply.error, "Ошибка входа")))
    ensures h.response.status in {200, 400, 405}
  {
    if req.verb != "POST" then Handled(MethodNotAllowed, None)
    else
      match req.body
      case Malformed(e) => Handled(Response(400, Message(MessageOr(e, "Ошибка входа"))), None)
      case Fields(fields) =>
        if !HasCredentials(req.body) then Handled(MissingCredentials, None)
        else
          var call := LoginCall(fields["email"], fields["password"]);
          match Settle(Login, reply)
          case Ok(token) => Handled(Response(200, TokenReply(token)), Some(call))
          case Err(e) => Handled(Response(400, Message(MessageOr(e, "Ошибка входа"))), Some(call))
  }
}

/** POST /api/auth/register (app/api/auth/register/route.ts). */
module RegisterRoute {
  import opened Wrappers
  import opened Errors
  import opened Fitness
  import opened Http

  datatype RegisterCall = RegisterCall(email: JsValue, password: JsValue)

  const Registered := Response(201, Message("Регистрация прошла успешно!"))

  /** `POST(request)`; `reply` is what the upstream registration request receives. */
  function Post(req: Request, reply: Reply<Payload>): (h: Handled<RegisterCall>)
    ensures req.verb != "POST" ==> h == Handled(MethodNotAllowed, None)
    ensures req.verb == "POST" && req.body.Fields? && !HasCredentials(req.body) ==>
      h == Handled(MissingCredentials, None)
    ensures h.call.Some? <==> req.verb == "POST" && HasCredentials(req.body)
    ensures h.response == Registered <==> h.call.Some? && reply.Success?
    ensures req.verb == "POST" && h.response != Registered ==> h.response.status == 400 && h.response.body.Message?
    ensures req.verb == "POST" && req.body.Malformed? ==>
      h.response == Response(400, Message(MessageOr(req.body.error, "Ошибка регистрации")))
    // a failed upstream registration is a 400 carrying the thrown Error's message
    ensures h.call.Some? && reply.Failure? ==>
      h.response == Response(400, Message(FailureMessage(reply.body, "Ошибка регистрации")))
    ensures h.call.Some? && reply.NetworkFailure? ==>
      h.response == Response(400, Message(MessageOr(reply.error, "Ошибка регистрации")))
    ensures h.response.status in {201, 400, 405}
  {
    if req.verb != "POST" then Handled(MethodNotAllowed, None)
    else
      match req.body
      case Malformed(e) => Handled(Response(400, Message(MessageOr(e, "Ошибка регистрации"))), None)
      case Fields(fields) =>
        if !HasCredentials(req.body) then Handled(MissingCredentials, None)
        else
          var call := RegisterCall(fields["email"], fields["password"]);
          match Settle(Register, reply)
          case Ok(_) => Handled(Registered, Some(call))
          case Err(e) => Handled(Response(400, Message(MessageOr(e, "Ошибка регистрации"))), Some(call))
  }
}

/** GET /api/users/me (app/api/users/me/route.ts). */
module UsersMeRoute {
  import opened Wrappers
  import opened Errors
  import opened Fitness
  import opened Http

  datatype UserCall = UserCall(token: string)

  /** `GET(request)`; `reply` is what the upstream user request receives. No token verification is done. */
  function Get(req: Request, reply: Reply<Payload>): (h: Handled<UserCall>)
    ensures req.verb != "GET" ==> h == Handled(MethodNotAllowed, None)
    ensures req.verb == "GET" && !HasToken(req.authorization) ==> h == Handled(MissingToken, None)
    ensures h.call.Some? <==> req.verb == "GET" && HasToken(req.authorization)
    ensures h.call.Some? ==> h.call.value.token == BearerToken(req.authorization).value
    // success is answered with status 201, failure with 400
    ensures h.response.status == 201 <==> h.call.Some? && reply.Success?
    ensures h.response.status == 201 ==> h.response.body == UserReply(reply.data)
    ensures h.call.Some? && !reply.Success? ==> h.response.status == 400 && h.response.body.Message?
    ensures h.call.Some? && reply.Failure? ==>
      h.response == Response(400, Message(FailureMessage(reply.body, "Ошибка получения данных пользователя")))
    ensures h.call.Some? && reply.NetworkFailure? ==>
      h.response == Response(400, Message(MessageOr(reply.error, "Ошибка получения данных пользователя")))
    ensures h.response.status in {201, 400, 401, 405}
  {
    if req.verb != "GET" then Handled(MethodNotAllowed, None)
    else if !HasToken(req.authorization) then Handled(MissingToken, None)
    else
      var token := BearerToken(req.authorization).value;
      match Settle(GetUser, reply)
      case Ok(user) => Handled(Response(201, UserReply(user)), Some(UserCall(token)))
      case Err(e) =>
        Handled(Response(400, Message(MessageOr(e, "Ошибка получения данных пользователя"))), Some(UserCall(token)))
  }

  /** Any token is passed on as it is, even one `verifyToken` would refuse. */
  lemma NoVerification(req: Request, reply: Reply<Payload>)
    requires req.verb == "GET" && BearerToken(req.authorization) == Some("not-a-jwt")
    ensures Get(req, reply).call == Some(UserCall("not-a-jwt"))
  {
  }
}

/** GET /api/courses (app/api/courses/route.ts). */
module CoursesRoute {
  import opened Wrappers
  import opened Errors
  import opened Fitness
  import opened Http

  /** `GET(request)`; `reply` is what the upstream course list request receives. */
  function Get(req: Request, reply: Reply<Payload>): (h: Handled<()>)
    ensures req.verb != "GET" ==> h == Handled(MethodNotAllowed, None)
    // no authorization is looked at: every GET reaches the upstream
    ensures h.call.Some? <==> req.verb == "GET"
    ensures h.response.status == 200 <==> req.verb == "GET" && reply.Success?
    ensures h.response.status == 200 ==> h.response.body == Relay(reply.data)
    ensures req.verb == "GET" && reply.Failure? ==>
      h.response == Response(500, Message(FailureMessage(reply.body, "Ошибка получения курсов")))
    ensures req.verb == "GET" && reply.NetworkFailure? ==>
      h.response == Response(500, Message(MessageOr(reply.error, "Ошибка получения курсов")))
    ensures h.response.status in {200, 405, 500}
  {
    if req.verb != "GET" then Handled(MethodNotAllowed, None)
    else
      match Settle(GetCourses, reply)
      case Ok(courses) => Handled(Response(200, Relay(courses)), Some(()))
      case Err(e) => Handled(Response(500, Message(MessageOr(e, "Ошибка получения курсов"))), Some(()))
  }

  /** The answer does not depend on the authorization header. */
  lemma AuthorizationIgnored(req: Request, other: Option<string>, reply: Reply<Payload>)
    ensures Get(req, reply) == Get(req.(authorization := other), reply)
  {
  }
}
