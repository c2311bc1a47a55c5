/**
 * The client library for the fitness API (libs/fitness.ts): token verification, the
 * token-required guards, the progress URLs and the error messages of failed calls.
 * The requests themselves are not modelled; each call's reply is an input.
 */
module Fitness {
  import opened Wrappers
  import opened Text
  import opened Errors

  /** The claims of a token payload that `verifyToken` reads; a missing claim is `None`. */
  datatype JwtPayload = JwtPayload(
    id: Option<string>,
    userId: Option<string>,
    sub: Option<string>,
    email: Option<string>,
    exp: Option<int>              // seconds since the epoch
  )

  /** What `verifyToken` returns on success. */
  datatype DecodedToken = DecodedToken(id: string, email: Option<string>)

  /**
   * The base64 decoding and `JSON.parse` of the middle segment, kept abstract:
   * `None` when either throws.
   */
  type PayloadDecoder = string -> Option<JwtPayload>

  /** A JavaScript string is truthy when it is present and non-empty. */
  predicate Truthy(s: Option<string>) {
    s.Some? && s.value != ""
  }

  /** `a || b || … || ''` over optional strings. */
  function FirstTruthy(candidates: seq<Option<string>>): (r: string)
    ensures r == "" <==> forall i | 0 <= i < |candidates| :: !Truthy(candidates[i])
    ensures r != "" ==> exists i | 0 <= i < |candidates| :: candidates[i] == Some(r)
  {
    if candidates == [] then ""
    else if Truthy(candidates[0]) then candidates[0].value
    else
      var r := FirstTruthy(candidates[1..]);
      assert forall i | 1 <= i < |candidates| :: candidates[i] == candidates[1..][i - 1];
      r
  }

  /** `payload.exp && payload.exp * 1000 < now`: a missing or zero `exp` never expires. */
  predicate Expired(p: JwtPayload, now: int): (expired: bool)
    // a payload without `exp`, or with `exp == 0`, never expires
    ensures p.exp.None? || p.exp == Some(0) ==> !expired
    // `exp` is in seconds and `now` in milliseconds
    ensures expired ==> p.exp.value * 1000 < now
  {
    p.exp.Some? && p.exp.value != 0 && p.exp.value * 1000 < now
  }

  /** `verifyToken(token)`, with `Date.now()` given as `now` in milliseconds. */
  function VerifyToken(token: string, decode: PayloadDecoder, now: int): (r: Option<DecodedToken>)
    ensures token == "" ==> r.None?
    ensures Count(token, '.') != 2 ==> r.None?
    ensures r.Some? <==>
      token != "" && |Split(token, '.')| == 3 && decode(Split(token, '.')[1]).Some?
      && !Expired(decode(Split(token, '.')[1]).value, now)
    ensures r.Some? ==>
      var p := decode(Split(token, '.')[1]).value;
      r.value.id == FirstTruthy([p.id, p.userId, p.sub]) && r.value.email == p.email
  {
    SplitLength(token, '.');
    if token == "" then None
    else
      var parts := Split(token, '.');
      if |parts| != 3 then None
      else
        match decode(parts[1])
        case None => None
        case Some(p) =>
          if Expired(p, now) then None
          else Some(DecodedToken(FirstTruthy([p.id, p.userId, p.sub]), p.email))
  }

  /**
   * A token assembled from three dot-free segments verifies exactly when its middle
   * segment decodes to an unexpired payload.
   */
  lemma VerifyAssembledToken(header: string, body: string, signature: string, decode: PayloadDecoder, now: int)
    requires '.' !in header && '.' !in body && '.' !in signature
    ensures var token := header + "." + body + "." + signature;
      VerifyToken(token, decode, now).Some? <==> decode(body).Some? && !Expired(decode(body).value, now)
  {
    var token := header + "." + body + "." + signature;
    var parts := [header, body, signature];
    assert Join(parts, '.') == token by {
      assert Join(parts[1..], '.') == body + "." + signature by {
        assert parts[1..][1..] == [signature];
      }
    }
    SplitJoin(parts, '.');
  }

  /** The calls that refuse to run without a token. */
  datatype GuardedCall =
    | AddCourseToUser
    | DeleteCourseFromUser
    | GetWorkoutProgress
    | GetAllWorkoutsProgress
    | GetWorkoutById

  function TokenRequiredMessage(call: GuardedCall): string {
    match call
    case AddCourseToUser => "Токен авторизации обязателен для добавления курса"
    case DeleteCourseFromUser => "Токен авторизации обязателен для удаления курса"
    case GetWorkoutProgress => "Токен авторизации обязателен для получения прогресса"
    case GetAllWorkoutsProgress => "Токен авторизации обязателен для получения прогресса"
    case GetWorkoutById => "Токен авторизации обязателен для получения тренировки"
  }

  /** `if (!token) throw new Error(…)`: the guard at the head of each guarded call. */
  function RequireToken(call: GuardedCall, token: Option<string>): (r: Result<string, Thrown>)
    ensures r.Ok? <==> Truthy(token)
    ensures r.Ok? ==> r.value == token.value
    ensures r.Err? ==> r.error == PlainError(TokenRequiredMessage(call)) && r.error.message != ""
  {
    if Truthy(token) then Ok(token.value) else Err(PlainError(TokenRequiredMessage(call)))
  }

  /** The body of a non-OK reply, as `response.json()` yields it. */
  datatype ErrorBody =
    | Unparseable                      // `response.json()` rejected
    | Parsed(message: Option<string>)  // the body's `message`, when it is a string

  /** The reply of one request: OK with data, non-OK with a body, or a network failure. */
  datatype Reply<T> = Success(data: T) | Failure(body: ErrorBody) | NetworkFailure(error: Thrown)

  /**
   * `const error = await response.json().catch(() => ({ message: fallback }));
   *  throw new Error(error.message || fallback)`
   */
  function FailureMessage(body: ErrorBody, fallback: string): (r: string)
    ensures fallback != "" ==> r != ""
    ensures r == fallback || body == Parsed(Some(r))
    ensures body.Parsed? && Truthy(body.message) ==> r == body.message.value
  {
    match body
    case Parsed(Some(m)) => if m != "" then m else fallback
    case _ => fallback
  }

  /** Every fetch wrapper of the library, by the fallback message it throws. */
  datatype Endpoint =
    | Login | Register | GetUser | GetCourses | GetCourseById | AddCourse | RemoveCourse
    | RestartCourse | WorkoutProgress | AllWorkoutsProgress | WorkoutById

  function FailureFallback(e: Endpoint): (r: string)
    ensures r != ""
  {
    match e
    case Login => "Ошибка входа"
    case Register => "Ошибка регистрации"
    case GetUser => "Ошибка получения данных пользователя"
    case GetCourses => "Ошибка получения курсов"
    case GetCourseById => "Ошибка получения курса"
    case AddCourse => "Ошибка добавления курса"
    case RemoveCourse => "Ошибка удаления курса"
    case RestartCourse => "Ошибка сброса прогресса курса"
    case WorkoutProgress => "Ошибка получения прогресса тренировки"
    case AllWorkoutsProgress => "Ошибка получения прогресса курса"
    case WorkoutById => "Ошибка получения тренировки"
  }

  /** What one fetch wrapper resolves or rejects with, given the reply it received. */
  function Settle<T>(e: Endpoint, reply: Reply<T>): (r: Result<T, Thrown>)
    ensures reply.Success? <==> r.Ok?
    ensures reply.Success? ==> r.value == reply.data
    ensures reply.Failure? ==> r.Err? && r.error.PlainError? && r.error.message != ""
    // a non-OK reply throws `new Error(message || fallback)` with the endpoint's own fallback
    ensures reply.Failure? ==> r == Err(PlainError(FailureMessage(reply.body, FailureFallback(e))))
    // a rejected `fetch` propagates unchanged
    ensures reply.NetworkFailure? ==> r == Err(reply.error)
  {
    match reply
    case Success(d) => Ok(d)
    case Failure(body) => Err(PlainError(FailureMessage(body, FailureFallback(e))))
    case NetworkFailure(err) => Err(err)
  }

  /** The endpoint a guarded call forwards to once its token is present. */
  function GuardedEndpoint(call: GuardedCall): Endpoint {
    match call
    case AddCourseToUser => AddCourse
    case DeleteCourseFromUser => RemoveCourse
    case GetWorkoutProgress => WorkoutProgress
    case GetAllWorkoutsProgress => AllWorkoutsProgress
    case GetWorkoutById => WorkoutById
  }

  /** A guarded call: the token check, then the request. */
  function GuardedCallResult<T>(call: GuardedCall, token: Option<string>, reply: Reply<T>): (r: Result<T, Thrown>)
    ensures !Truthy(token) ==> r == Err(PlainError(TokenRequiredMessage(call)))
    ensures Truthy(token) ==> r == Settle(GuardedEndpoint(call), reply)
  {
    match RequireToken(call, token)
    case Err(e) => Err(e)
    case Ok(_) => Settle(GuardedEndpoint(call), reply)
  }

  /** Without a token the reply is never consulted: the call fails before any request. */
  lemma NoTokenNoRequest<T>(call: GuardedCall, token: Option<string>, reply1: Reply<T>, reply2: Reply<T>)
    requires !Truthy(token)
    ensures GuardedCallResult(call, token, reply1) == GuardedCallResult(call, token, reply2)
    ensures GuardedCallResult(call, token, reply1).Err?
  {
  }

  /** `registerUser` resolves with the body's message, or a fixed one when it is falsy. */
  function RegisterSuccessMessage(message: Option<string>): (r: string)
    ensures r != ""
    ensures Truthy(message) ==> r == message.value
    ensures !Truthy(message) ==> r == "Регистрация успешна"
  {
    if Truthy(message) then message.value else "Регистрация успешна"
  }

  const ProgressPath := "/users/me/progress?courseId="
  const WorkoutParam := "&workoutId="

  /** The URL `getAllWorkoutsProgress` requests; the id is inserted unescaped. */
  function CourseProgressUrl(base: string, courseId: string): (url: string)
    ensures |url| == |base| + |ProgressPath| + |courseId|
    ensures url[..|base|] == base && url[|base|..|base| + |ProgressPath|] == ProgressPath
    ensures url[|base| + |ProgressPath|..] == courseId
  {
    base + ProgressPath + courseId
  }

  /** The URL `getWorkoutProgress` requests; the ids are inserted unescaped. */
  function WorkoutProgressUrl(base: string, courseId: string, workoutId: string): (url: string)
    ensures url == CourseProgressUrl(base, courseId) + WorkoutParam + workoutId
  {
    base + ProgressPath + courseId + WorkoutParam + workoutId
  }

  /** For ids without `&`, the workout progress URL determines both ids. */
  lemma WorkoutProgressUrlInjective(base: string, c1: string, w1: string, c2: string, w2: string)
    requires '&' !in c1 && '&' !in c2
    requires WorkoutProgressUrl(base, c1, w1) == WorkoutProgressUrl(base, c2, w2)
    ensures c1 == c2 && w1 == w2
  {
    var s1 := c1 + WorkoutParam + w1;
    var s2 := c2 + WorkoutParam + w2;
    var n := |base| + |ProgressPath|;
    assert WorkoutProgressUrl(base, c1, w1)[n..] == s1;
    assert WorkoutProgressUrl(base, c2, w2)[n..] == s2;
    assert s1 == s2;
    FirstAmpersand(c1, w1);
    FirstAmpersand(c2, w2);
    assert c1 == s1[..|c1|] == s2[..|c2|] == c2;
    assert w1 == s1[|c1| + |WorkoutParam|..] == s2[|c2| + |WorkoutParam|..] == w2;
  }

  /** In `id + "&workoutId=" + rest` with an `&`-free id, the first `&` ends the id. */
  lemma FirstAmpersand(id: string, rest: string)
    requires '&' !in id
    ensures (id + WorkoutParam + rest)[|id|] == '&'
    ensures forall i | 0 <= i < |id| :: (id + WorkoutParam + rest)[i] != '&'
  {
  }

  /** Because nothing is escaped, an id holding `&workoutId=` makes two requests look alike. */
  lemma UnescapedIdsCollide()
    ensures WorkoutProgressUrl("", "a&workoutId=b", "c") == WorkoutProgressUrl("", "a", "b&workoutId=c")
  {
  }
}
