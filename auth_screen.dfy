/** The authentication screen: the e-mail and password validators, the order
    of the checks `handleAuth` makes before calling the server, and what it
    does with the server's answer (which user id and token it keeps, what it
    stores, where it navigates). */
module AuthScreen {
  import opened Common
  import opened Storage
  import opened ApiService

  // ---------------------------------------------------------------- e-mail

  /** `[^\s@]`. */
  predicate IsEmailChar(c: char) {
    !IsJsWhitespace(c) && c != '@'
  }

  predicate EmailCharsBetween(s: string, lo: nat, hi: nat)
    requires lo <= hi <= |s|
  {
    forall k :: lo <= k < hi ==> IsEmailChar(s[k])
  }

  /** What `/^[^\s@]+@[^\s@]+\.[^\s@]+$/` matches, read literally: a run of
      `[^\s@]`, an '@', a run, a '.', a run, and nothing else. */
  ghost predicate EmailRegexMatches(s: string) {
    exists at: nat, dot: nat ::
      && 0 < at && at + 1 < dot && dot + 1 < |s|
      && s[at] == '@' && s[dot] == '.'
      && EmailCharsBetween(s, 0, at)
      && EmailCharsBetween(s, at + 1, dot)
      && EmailCharsBetween(s, dot + 1, |s|)
  }

  /** The first index of `c` in `s`, or -1. */
  function IndexOf(s: string, c: char): (i: int)
    ensures -1 <= i < |s|
    ensures i >= 0 ==> s[i] == c && forall k :: 0 <= k < i ==> s[k] != c
    ensures i == -1 ==> forall k :: 0 <= k < |s| ==> s[k] != c
  {
    if s == [] then -1
    else if s[0] == c then 0
    else
      var j := IndexOf(s[1..], c);
      if j == -1 then -1 else j + 1
  }

  predicate NoWhitespace(s: string) {
    forall k :: 0 <= k < |s| ==> !IsJsWhitespace(s[k])
  }

  /** `d` holds a '.' that is neither its first nor its last character. */
  predicate HasInnerDot(d: string) {
    exists k :: 0 < k < |d| - 1 && d[k] == '.'
  }

  /** `validateEmail`: no whitespace, exactly one '@' (the first is also the
      last), a non-empty local part, and a domain with an inner '.'. This is
      exactly the language of the regular expression the screen tests. */
  function ValidateEmail(email: string): (ok: bool)
    ensures ok <==> EmailRegexMatches(email)
  {
    var at := IndexOf(email, '@');
    var matches := at > 0 && NoWhitespace(email)
                   && '@' !in email[at + 1..] && HasInnerDot(email[at + 1..]);
    EmailSoundness(email);
    EmailCompleteness(email);
    matches
  }

  lemma EmailSoundness(s: string)
    ensures var at := IndexOf(s, '@');
            at > 0 && NoWhitespace(s) && '@' !in s[at + 1..] && HasInnerDot(s[at + 1..])
            ==> EmailRegexMatches(s)
  {
    var at := IndexOf(s, '@');
    if at > 0 && NoWhitespace(s) && '@' !in s[at + 1..] && HasInnerDot(s[at + 1..]) {
      var d := s[at + 1..];
      var k :| 0 < k < |d| - 1 && d[k] == '.';
      var dot := at + 1 + k;
      assert s[dot] == '.';
      forall m | at + 1 <= m < |s| ensures s[m] != '@' {
        assert s[m] == d[m - at - 1];
      }
      assert EmailCharsBetween(s, 0, at);
      assert EmailCharsBetween(s, at + 1, dot);
      assert EmailCharsBetween(s, dot + 1, |s|);
    }
  }

  lemma IndexOfFirst(s: string, c: char, i: nat)
    requires i < |s| && s[i] == c
    requires forall k :: 0 <= k < i ==> s[k] != c
    ensures IndexOf(s, c) == i
  {
  }

  /** Outside the '@' and the '.', a match holds only `[^\s@]` characters. */
  lemma EmailCharsCover(s: string, at: nat, dot: nat)
    requires at < dot < |s|
    requires EmailCharsBetween(s, 0, at) && EmailCharsBetween(s, at + 1, dot) && EmailCharsBetween(s, dot + 1, |s|)
    ensures forall k :: 0 <= k < |s| && k != at && k != dot ==> IsEmailChar(s[k])
  {
    forall k | 0 <= k < |s| && k != at && k != dot ensures IsEmailChar(s[k]) {
      if k < at {
        assert EmailCharsBetween(s, 0, at);
      } else if k < dot {
        assert EmailCharsBetween(s, at + 1, dot);
      } else {
        assert EmailCharsBetween(s, dot + 1, |s|);
      }
    }
  }

  lemma EmailCompleteness(s: string)
    ensures EmailRegexMatches(s) ==>
            var at := IndexOf(s, '@');
            at > 0 && NoWhitespace(s) && '@' !in s[at + 1..] && HasInnerDot(s[at + 1..])
  {
    if EmailRegexMatches(s) {
      var at: nat, dot: nat :|
        && 0 < at && at + 1 < dot && dot + 1 < |s|
        && s[at] == '@' && s[dot] == '.'
        && EmailCharsBetween(s, 0, at)
        && EmailCharsBetween(s, at + 1, dot)
        && EmailCharsBetween(s, dot + 1, |s|);
      IndexOfFirst(s, '@', at);
      EmailCharsCover(s, at, dot);
      assert !IsJsWhitespace('@') && !IsJsWhitespace('.');
      assert NoWhitespace(s);
      var d := s[at + 1..];
      forall m | 0 <= m < |d| ensures d[m] != '@' {
        assert d[m] == s[at + 1 + m];
      }
      assert d[dot - at - 1] == '.';
    }
  }

  // ---------------------------------------------------------------- password

  predicate NoLineTerminatorBefore(s: string, k: nat)
    requires k <= |s|
  {
    forall m :: 0 <= m < k ==> !IsLineTerminator(s[m])
  }

  /** What `/^(?=.*[A-Za-z])(?=.*\d)[A-Za-z\d]{8,}$/` matches, read literally:
      each lookahead finds its class after a run of non-line-terminators, and
      the body is eight or more ASCII letters or digits. */
  ghost predicate PasswordRegexMatches(p: string) {
    && (exists k :: 0 <= k < |p| && IsAsciiLetter(p[k]) && NoLineTerminatorBefore(p, k))
    && (exists k :: 0 <= k < |p| && IsAsciiDigit(p[k]) && NoLineTerminatorBefore(p, k))
    && |p| >= 8
    && forall k :: 0 <= k < |p| ==> IsAsciiLetter(p[k]) || IsAsciiDigit(p[k])
  }

  /** `validatePassword`: at least 8 characters, all ASCII letters or digits,
      at least one letter and one digit; this is the regular expression's language. */
  function ValidatePassword(password: string): (ok: bool)
    ensures ok <==> PasswordRegexMatches(password)
  {
    var matches := && |password| >= 8
                   && (forall k :: 0 <= k < |password| ==> IsAsciiLetter(password[k]) || IsAsciiDigit(password[k]))
                   && (exists k :: 0 <= k < |password| && IsAsciiLetter(password[k]))
                   && (exists k :: 0 <= k < |password| && IsAsciiDigit(password[k]));
    PasswordEquivalence(password);
    matches
  }

  lemma PasswordEquivalence(p: string)
    ensures PasswordRegexMatches(p) <==>
            && |p| >= 8
            && (forall k :: 0 <= k < |p| ==> IsAsciiLetter(p[k]) || IsAsciiDigit(p[k]))
            && (exists k :: 0 <= k < |p| && IsAsciiLetter(p[k]))
            && (exists k :: 0 <= k < |p| && IsAsciiDigit(p[k]))
  {
    if && |p| >= 8
       && (forall k :: 0 <= k < |p| ==> IsAsciiLetter(p[k]) || IsAsciiDigit(p[k]))
       && (exists k :: 0 <= k < |p| && IsAsciiLetter(p[k]))
       && (exists k :: 0 <= k < |p| && IsAsciiDigit(p[k]))
    {
      var i :| 0 <= i < |p| && IsAsciiLetter(p[i]);
      var j :| 0 <= j < |p| && IsAsciiDigit(p[j]);
      assert NoLineTerminatorBefore(p, i);
      assert NoLineTerminatorBefore(p, j);
    }
  }

  // ---------------------------------------------------------------- guards

  const FillAllFieldsAlert := Alert("Erreur", "Veuillez remplir tous les champs.")
  const InvalidEmailAlert := Alert("Email invalide", "Veuillez saisir une adresse email valide.")
  const InvalidPasswordAlert :=
    Alert("Mot de passe invalide", "Le mot de passe doit contenir au moins 8 caractères, une lettre et un chiffre.")
  const PasswordMismatchAlert := Alert("Erreur", "Les mots de passe ne correspondent pas.")

  /** The alert of the first check of `handleAuth` that fails, in the order
      empty field, e-mail format, password format, confirmation mismatch;
      None when all pass. The confirmation is checked in register mode only. */
  function FirstFailingCheck(isLogin: bool, email: string, password: string, confirm: string): (r: Option<Alert>)
    ensures r.None? <==> && email != "" && password != ""
                         && ValidateEmail(email) && ValidatePassword(password)
                         && (isLogin || password == confirm)
    ensures email == "" || password == "" ==> r == Some(FillAllFieldsAlert)
    ensures email != "" && password != "" && !ValidateEmail(email) ==> r == Some(InvalidEmailAlert)
    ensures email != "" && password != "" && ValidateEmail(email) && !ValidatePassword(password) ==>
              r == Some(InvalidPasswordAlert)
    ensures r == Some(PasswordMismatchAlert) <==>
              && email != "" && password != "" && ValidateEmail(email) && ValidatePassword(password)
              && !isLogin && password != confirm
  {
    if email == "" || password == "" then Some(FillAllFieldsAlert)
    else if !ValidateEmail(email) then Some(InvalidEmailAlert)
    else if !ValidatePassword(password) then Some(InvalidPasswordAlert)
    else if !isLogin && password != confirm then Some(PasswordMismatchAlert)
    else None
  }

  /** The confirmation field is irrelevant in login mode. */
  lemma ConfirmationIgnoredOnLogin(email: string, password: string, c1: string, c2: string)
    ensures FirstFailingCheck(true, email, password, c1) == FirstFailingCheck(true, email, password, c2)
  {
  }

  // ---------------------------------------------------------------- the server's answer

  /** What `handleAuth` reads of an `AuthResponse`: `token`, `user?.id`, `id` and `name`. */
  datatype AuthResponse = AuthResponse(token: Option<string>, userId: Option<string>, id: Option<string>, name: Option<string>)

  /** The identity `handleAuth` keeps after a successful call. */
  datatype Session = Session(userId: string, token: Option<string>, name: Option<string>)

  const MissingLoginDataMessage := "Token ou informations utilisateur manquantes après connexion."
  const MissingRegisterIdMessage := "ID utilisateur non fourni après inscription."
  const AuthErrorTitle := "Erreur d'authentification"
  const AuthErrorFallback := "Une erreur est survenue."

  /** The session a login or register answer yields, or the error thrown. A
      login needs both a token and `user.id`; a register takes `id`, falling
      back to `user.id`, and needs one of them. */
  function AuthSession(isLogin: bool, reply: Result<AuthResponse>): (r: Result<Session>)
    ensures reply.Err? ==> r == Err(reply.error)
    ensures isLogin && reply.Ok? ==> (r.Ok? <==> Truthy(reply.value.token) && Truthy(reply.value.userId))
    ensures isLogin && r.Ok? ==> r.value == Session(reply.value.userId.value, reply.value.token, reply.value.name)
    ensures !isLogin && reply.Ok? ==> (r.Ok? <==> Truthy(reply.value.id) || Truthy(reply.value.userId))
    ensures !isLogin && r.Ok? ==>
              r.value == Session(if Truthy(reply.value.id) then reply.value.id.value else reply.value.userId.value,
                                 reply.value.token, reply.value.name)
    ensures reply.Ok? && r.Err? ==> r.error == if isLogin then MissingLoginDataMessage else MissingRegisterIdMessage
    ensures r.Ok? ==> r.value.userId != ""
  {
    match reply
    case Err(e) => Err(e)
    case Ok(data) =>
      if isLogin then
        if Truthy(data.token) && Truthy(data.userId) then Ok(Session(data.userId.value, data.token, data.name))
        else Err(MissingLoginDataMessage)
      else
        var userId := if Truthy(data.id) then data.id else data.userId;
        if Truthy(userId) then Ok(Session(userId.value, data.token, data.name))
        else Err(MissingRegisterIdMessage)
  }

  const DashboardRoute := "/dashboard/dashboard"
  const QuestionnaireRoute := "/questionnaire/questionnaire"

  /** The `try` block of `handleAuth` after the call settled: the `let`
      variables `userId`, `token` and `userNameFromAuth` as it assigns them,
      and the message of the error thrown, if any. */
  method ReadAuthReply(isLogin: bool, reply: Result<AuthResponse>)
    returns (userId: Option<string>, token: Option<string>, userNameFromAuth: Option<string>, thrown: Option<string>)
    ensures thrown.Some? <==> AuthSession(isLogin, reply).Err?
    ensures thrown.Some? ==> thrown.value == AuthSession(isLogin, reply).error
    ensures thrown.None? ==>
              && userId == Some(AuthSession(isLogin, reply).value.userId)
              && token == AuthSession(isLogin, reply).value.token
              && userNameFromAuth == AuthSession(isLogin, reply).value.name
  {
    userId, token, userNameFromAuth, thrown := None, None, None, None;
    if isLogin {
      if reply.Err? {
        thrown := Some(reply.error);
      } else if Truthy(reply.value.token) && Truthy(reply.value.userId) {
        token := reply.value.token;
        userId := reply.value.userId;
        userNameFromAuth := reply.value.name;
      } else {
        thrown := Some(MissingLoginDataMessage);
      }
    } else {
      if reply.Err? {
        thrown := Some(reply.error);
      } else {
        userId := if Truthy(reply.value.id) then reply.value.id else reply.value.userId;
        token := reply.value.token;
        userNameFromAuth := reply.value.name;
        if !Truthy(userId) {
          thrown := Some(MissingRegisterIdMessage);
        }
      }
    }
  }

  /** The writes `handleAuth` makes once the call succeeded: each of the
      user id, the token and the name is stored when it is truthy; a login
      that brought a token but no name asks the preferences endpoint for the
      name and stores it when that answer has one. */
  method StoreIdentity(store: Store, isLogin: bool, userId: Option<string>, token: Option<string>,
                       userNameFromAuth: Option<string>, nameReply: Result<Option<string>>)
    returns (store': Store, followUp: seq<Request>)
    ensures Get(store', "userId") == if Truthy(userId) then userId else Get(store, "userId")
    ensures Get(store', "token") == if Truthy(token) then token else Get(store, "token")
    ensures var fetchName := isLogin && Truthy(userId) && Truthy(token) && !Truthy(userNameFromAuth);
            && followUp == (if fetchName then [FetchPreferencesRequest(userId.value, token.value)] else [])
            && Get(store', "name") == (if Truthy(userNameFromAuth) then userNameFromAuth
                                       else if fetchName && nameReply.Ok? && Truthy(nameReply.value) then nameReply.value
                                       else Get(store, "name"))
    ensures forall k :: k != "userId" && k != "token" && k != "name" ==> Get(store', k) == Get(store, k)
  {
    store', followUp := store, [];
    if Truthy(userId) {
      store' := Set(store', "userId", userId.value);
    }
    if Truthy(token) {
      store' := Set(store', "token", token.value);
    }
    if Truthy(userNameFromAuth) {
      store' := Set(store', "name", userNameFromAuth.value);
    }
    if isLogin && Truthy(userId) && Truthy(token) && !Truthy(userNameFromAuth) {
      followUp := [FetchPreferencesRequest(userId.value, token.value)];
      // a failure of this call is swallowed
      if nameReply.Ok? && Truthy(nameReply.value) {
        store' := Set(store', "name", nameReply.value.value);
      }
    }
  }

  /** The form state of the screen. */
  class AuthForm {
    var isLogin: bool
    var email: string
    var password: string
    var confirmPassword: string
    var loading: bool

    constructor ()
      ensures isLogin && email == "" && password == "" && confirmPassword == "" && !loading
    {
      isLogin, email, password, confirmPassword, loading := true, "", "", "", false;
    }

    /** `handleAuth`. `reply` is what the login or register call settled to;
        `nameReply` is what the follow-up preferences call settled to (its
        `name` field), used only when that call is made. Returns the requests
        sent, the store after the writes, the alert shown and the navigation. */
    method HandleAuth(store: Store, reply: Result<AuthResponse>, nameReply: Result<Option<string>>)
      returns (requests: seq<Request>, store': Store, alert: Option<Alert>, nav: Option<Navigation>)
      modifies this`loading
      // a failing check: an alert, and nothing is sent, stored or navigated
      ensures FirstFailingCheck(isLogin, email, password, confirmPassword).Some? ==>
                && alert == FirstFailingCheck(isLogin, email, password, confirmPassword)
                && requests == [] && store' == store && nav == None && loading == old(loading)
      // all checks pass: exactly one auth call is made, first
      ensures FirstFailingCheck(isLogin, email, password, confirmPassword).None? ==>
                && 1 <= |requests| <= 2 && !loading
                && requests[0] == (if isLogin then LoginRequest(email, password) else RegisterRequest(email, password))
      // the call failed or its answer lacks an identity: an alert, nothing stored
      ensures FirstFailingCheck(isLogin, email, password, confirmPassword).None? &&
              AuthSession(isLogin, reply).Err? ==>
                && alert == Some(Alert(AuthErrorTitle, OrElse(Some(AuthSession(isLogin, reply).error), AuthErrorFallback)))
                && |requests| == 1 && store' == store && nav == None
      // success: the identity is stored and the next screen depends on the mode
      ensures FirstFailingCheck(isLogin, email, password, confirmPassword).None? &&
              AuthSession(isLogin, reply).Ok? ==>
                var s := AuthSession(isLogin, reply).value;
                var fetchName := isLogin && Truthy(s.token) && !Truthy(s.name);
                && alert == None
                && nav == Some(Push(if isLogin then DashboardRoute else QuestionnaireRoute))
                && requests == [requests[0]] + (if fetchName then [FetchPreferencesRequest(s.userId, s.token.value)] else [])
                && Get(store', "userId") == Some(s.userId)
                && Get(store', "token") == (if Truthy(s.token) then s.token else Get(store, "token"))
                && Get(store', "name") == (if Truthy(s.name) then s.name
                                           else if fetchName && nameReply.Ok? && Truthy(nameReply.value) then nameReply.value
                                           else Get(store, "name"))
                && forall k :: k != "userId" && k != "token" && k != "name" ==> Get(store', k) == Get(store, k)
    {
      var failed := FirstFailingCheck(isLogin, email, password, confirmPassword);
      if failed.Some? {
        return [], store, failed, None;
      }
      loading := true;
      if isLogin {
        requests := [LoginRequest(email, password)];
      } else {
        requests := [RegisterRequest(email, password)];
      }
      var userId, token, userNameFromAuth, thrown := ReadAuthReply(isLogin, reply);
      store' := store;
      if thrown.Some? {
        alert := Some(Alert(AuthErrorTitle, OrElse(thrown, AuthErrorFallback)));
        nav := None;
      } else {
        var followUp;
        store', followUp := StoreIdentity(store, isLogin, userId, token, userNameFromAuth, nameReply);
        requests := requests + followUp;
        alert := None;
        nav := Some(Push(if isLogin then DashboardRoute else QuestionnaireRoute));
      }
      loading := false;
    }
  }
}
