/** The login route (`/login`): its action validates the form, logs in and
    opens a session whose data is assembled from the login answer; its page
    reports a failed login and, once per search-params object, consumes the
    session-expired marker in the URL. */
module AuthLogin {
  import opened Common
  import opened ToastMessage

  // ---------------------------------------------------------------------
  // The action

  /** `FormLoginValues`; `remember` is optional. */
  datatype FormLoginValues = FormLoginValues(email: string, password: string, remember: Option<bool>)

  /** What `getValidatedFormData` answers: the values when they are valid,
      and the resolver's field errors. */
  datatype Validated = Validated(data: Option<FormLoginValues>, errors: seq<string>)

  datatype Credentials = Credentials(email: string, password: string)

  /** `loginResponse.data`: the token payload and the member. */
  datatype TokenPayload = TokenPayload(tokenType: string, accessToken: string, refreshToken: string)
  datatype Member = Member(memberName: string, role: string)
  datatype LoginData = LoginData(payload: TokenPayload, member: Member)

  datatype Profile = Profile(avatar: string, fullName: string, role: string)
  datatype SessionData = SessionData(accessToken: string, refreshToken: string, profile: Profile)

  /** The arguments of `createSession`, the request aside. */
  datatype SessionArgs = SessionArgs(redirectTo: string, remember: bool, sessionData: SessionData)

  /** How the session store's call ends. Its promise is returned from the
      `try` without being awaited, so only a synchronous throw reaches the
      action's `catch`; a rejection of the returned promise does not. */
  datatype SessionOutcome = Returned | ThrewSync(thrown: Thrown) | RejectedLater(thrown: Thrown)

  /** What the action answers: the response of `createSession`, the
      resolver-error response for the field errors, the catch-clause
      response for what was thrown, or a rejection of the action's own
      promise with no response. */
  datatype ActionResult =
    | CreatedSession(args: SessionArgs)
    | ResolverErrors(errors: seq<string>)
    | CaughtError(thrown: Thrown)
    | RejectedAction(thrown: Thrown)

  const DefaultRedirect: string := "/dashboard"

  /** `searchParams.get('redirectTo') ?? '/dashboard'`: only an absent
      parameter falls back, an empty one is kept. */
  function RedirectTarget(query: seq<(string, string)>): (r: string)
    ensures FirstValue(query, "redirectTo") == None ==> r == DefaultRedirect
    ensures FirstValue(query, "redirectTo").Some? ==> r == FirstValue(query, "redirectTo").value
  {
    FirstValue(query, "redirectTo").GetOr(DefaultRedirect)
  }

  lemma EmptyRedirectIsKept()
    ensures RedirectTarget([("redirectTo", "")]) == ""
  {
  }

  /** `[type, accessToken].join(' ')`. */
  function Token(tokenType: string, accessToken: string): (token: string)
    ensures |token| == |tokenType| + 1 + |accessToken|
    ensures token[..|tokenType|] == tokenType && token[|tokenType|] == ' '
    ensures token[|tokenType| + 1..] == accessToken
  {
    tokenType + " " + accessToken
  }

  /** The inverse reading of a token: the text before its first space and
      the text after it. */
  function SplitAtFirstSpace(s: string): (r: (string, string))
    ensures ' ' !in s ==> r == (s, "")
    ensures ' ' in s ==> s == r.0 + " " + r.1 && ' ' !in r.0
  {
    if s == [] then ("", "")
    else if s[0] == ' ' then ("", s[1..])
    else
      var rest := SplitAtFirstSpace(s[1..]);
      assert s == [s[0]] + s[1..];
      ([s[0]] + rest.0, rest.1)
  }

  /** A token type without spaces is recovered from the token, and so is
      the access token, whatever it holds. */
  lemma {:induction false} TokenRoundTrip(tokenType: string, accessToken: string)
    requires ' ' !in tokenType
    ensures SplitAtFirstSpace(Token(tokenType, accessToken)) == (tokenType, accessToken)
  {
    if tokenType == [] {
      assert Token(tokenType, accessToken) == " " + accessToken;
    } else {
      assert Token(tokenType, accessToken)[1..] == Token(tokenType[1..], accessToken);
      TokenRoundTrip(tokenType[1..], accessToken);
      assert [tokenType[0]] + tokenType[1..] == tokenType;
    }
  }

  /** The session-store arguments for a successful login. */
  function NewSession(query: seq<(string, string)>, d: FormLoginValues, answer: LoginData): (args: SessionArgs)
    ensures args.redirectTo == RedirectTarget(query)
    ensures args.remember <==> d.remember == Some(true)
    ensures args.sessionData.accessToken == Token(answer.payload.tokenType, answer.payload.accessToken)
    ensures args.sessionData.refreshToken == answer.payload.refreshToken
    ensures args.sessionData.profile == Profile("", answer.member.memberName, answer.member.role)
  {
    SessionArgs(
      RedirectTarget(query),
      d.remember.GetOr(false),
      SessionData(Token(answer.payload.tokenType, answer.payload.accessToken),
                  answer.payload.refreshToken,
                  Profile("", answer.member.memberName, answer.member.role)))
  }

  /** The action. `query` is the request URL's search parameters, `login`
      the login service (awaited, so each of its failures is caught) and
      `createSession` the session store. */
  function Action(form: Validated, query: seq<(string, string)>,
                  login: Credentials -> Result<LoginData>,
                  createSession: SessionArgs -> SessionOutcome): (r: ActionResult)
    // without valid values no login is attempted
    ensures form.data.None? ==> r == ResolverErrors(form.errors)
    // a session is created only from a successful login with the form's credentials
    ensures r.CreatedSession? ==>
              && form.data.Some?
              && var d := form.data.value;
                 var login := login(Credentials(d.email, d.password));
                 && login.Ok?
                 && createSession(r.args) == Returned
                 && r.args.redirectTo == RedirectTarget(query)
                 && r.args.remember == d.remember.GetOr(false)
                 && r.args.sessionData.accessToken == Token(login.value.payload.tokenType, login.value.payload.accessToken)
                 && r.args.sessionData.refreshToken == login.value.payload.refreshToken
                 && r.args.sessionData.profile == Profile("", login.value.member.memberName, login.value.member.role)
    // a failed login and a synchronous throw of the session store are caught;
    // a later rejection of the session store's promise escapes the catch
    ensures form.data.Some? ==>
              var d := form.data.value;
              match login(Credentials(d.email, d.password))
              case Threw(e) => r == CaughtError(e)
              case Ok(answer) =>
                var args := NewSession(query, d, answer);
                match createSession(args)
                case Returned => r == CreatedSession(args)
                case ThrewSync(e) => r == CaughtError(e)
                case RejectedLater(e) => r == RejectedAction(e)
  {
    match form.data
    case None => ResolverErrors(form.errors)
    case Some(d) =>
      match login(Credentials(d.email, d.password))
      case Threw(e) => CaughtError(e)
      case Ok(answer) =>
        var args := NewSession(query, d, answer);
        match createSession(args)
        case Returned => CreatedSession(args)
        case ThrewSync(e) => CaughtError(e)
        case RejectedLater(e) => RejectedAction(e)
  }

  /** Invalid form values decide the answer alone: neither service matters. */
  lemma InvalidFormIgnoresServices(form: Validated, query: seq<(string, string)>,
                                   login1: Credentials -> Result<LoginData>, login2: Credentials -> Result<LoginData>,
                                   create1: SessionArgs -> SessionOutcome, create2: SessionArgs -> SessionOutcome)
    requires form.data.None?
    ensures Action(form, query, login1, create1) == Action(form, query, login2, create2)
  {
  }

  // ---------------------------------------------------------------------
  // The page

  /** `URLSearchParams` as an object: its name/value pairs in order. */
  class UrlSearchParams {
    var pairs: seq<(string, string)>

    constructor (pairs: seq<(string, string)>)
      ensures this.pairs == pairs
    {
      this.pairs := pairs;
    }

    /** `get`: the first value under `name`, `null` when there is none. */
    function Get(name: string): (r: Option<string>)
      reads this
      ensures r.Some? <==> exists i :: 0 <= i < |pairs| && pairs[i].0 == name
      ensures r.Some? ==> exists i :: 0 <= i < |pairs| && pairs[i] == (name, r.value) && NoneBefore(pairs, name, i)
    {
      FirstValue(pairs, name)
    }

    /** `delete`: every pair under `name` goes, the others stay in order. */
    method Delete(name: string)
      modifies this
      ensures pairs == WithoutName(old(pairs), name)
    {
      var all := pairs;
      var kept: seq<(string, string)> := [];
      var i := 0;
      while i < |all|
        invariant 0 <= i <= |all|
        invariant kept == WithoutName(all[..i], name)
      {
        assert all[..i + 1] == all[..i] + [all[i]];
        WithoutNameSnoc(all[..i], all[i], name);
        if all[i].0 != name {
          kept := kept + [all[i]];
        }
        i := i + 1;
      }
      assert all[..i] == all;
      pairs := kept;
    }
  }

  /** The notice of the action-data effect: a failed action is reported
      with the translated `auth:login_error` and the toast description. */
  function LoginErrorNotices(t: string -> string, statusNames: map<int, string>,
                             actionData: Option<ActionResponse>): (n: seq<Notice>)
    ensures |n| <= 1
    ensures |n| == 1 <==> actionData.Some? && actionData.value.hasError
    ensures |n| == 1 ==> n[0].kind == ErrorNotice && n[0].message == t("auth:login_error")
                         && n[0].description == GetMessageToToast(t, statusNames, actionData.value)
                         && n[0].description.Some?
  {
    if actionData.Some? && actionData.value.hasError then
      [Notice(ErrorNotice, t("auth:login_error"), GetMessageToToast(t, statusNames, actionData.value))]
    else []
  }

  /** The login page's state across renders. `t` is the translation
      function, `statusNames` is `StatusCodeMappingToString` and
      `sessionExpiredKey` is `SessionExpiredParams`. */
  class LoginPage {
    const t: string -> string
    const statusNames: map<int, string>
    const sessionExpiredKey: string
    var navigationState: FetchState
    var mounted: bool
    var lastActionData: Ref?<ActionResponse>
    var lastParams: UrlSearchParams?
    ghost var notices: seq<Notice>
    /** The search parameters written to the browser URL without navigation. */
    ghost var urlUpdates: seq<seq<(string, string)>>

    constructor (t: string -> string, statusNames: map<int, string>, sessionExpiredKey: string)
      ensures this.t == t && this.statusNames == statusNames && this.sessionExpiredKey == sessionExpiredKey
      ensures !mounted && navigationState == Idle && notices == [] && urlUpdates == []
    {
      this.t, this.statusNames, this.sessionExpiredKey := t, statusNames, sessionExpiredKey;
      navigationState := Idle;
      mounted, lastActionData, lastParams := false, null, null;
      notices, urlUpdates := [], [];
    }

    /** `isSubmiting`: the navigation is loading or submitting. */
    function IsSubmiting(): (r: bool)
      reads this
      ensures r <==> navigationState != Idle
    {
      IsInFlight(navigationState)
    }

    /** One render with the action data (its identity keys the first effect),
        the navigation state and the current search-params object (its
        identity keys the second effect). The effects run in source order. */
    method Render(actionData: Ref?<ActionResponse>, navigation: FetchState, params: UrlSearchParams)
      modifies this, params
      ensures mounted && navigationState == navigation
      ensures lastActionData == actionData && lastParams == params
      ensures var errorRuns := !old(mounted) || actionData != old(lastActionData);
              var expired := (!old(mounted) || params != old(lastParams))
                             && FirstValue(old(params.pairs), sessionExpiredKey).Some?;
              && notices == old(notices)
                            + (if errorRuns then LoginErrorNotices(t, statusNames, Deref(actionData)) else [])
                            + (if expired then [Notice(ErrorNotice, t("auth:session_expired"), Some(""))] else [])
              && params.pairs == (if expired then WithoutName(old(params.pairs), sessionExpiredKey) else old(params.pairs))
              && urlUpdates == old(urlUpdates) + (if expired then [params.pairs] else [])
    {
      navigationState := navigation;
      if !mounted || actionData != lastActionData {
        if actionData != null && actionData.value.hasError {
          notices := notices + [Notice(ErrorNotice, t("auth:login_error"),
                                       GetMessageToToast(t, statusNames, actionData.value))];
        }
      }
      if !mounted || params != lastParams {
        if params.Get(sessionExpiredKey) != None {
          notices := notices + [Notice(ErrorNotice, t("auth:session_expired"), Some(""))];
          params.Delete(sessionExpiredKey);
          urlUpdates := urlUpdates + [params.pairs];
        }
      }
      mounted, lastActionData, lastParams := true, actionData, params;
    }
  }
}
