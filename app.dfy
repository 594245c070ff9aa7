/** The CTF platform's route handlers, taken over an abstract store: the
    users table as a map keyed by id, the challenges and solves tables as
    sequences in row order, and the Flask session cookie as a value. Page
    rendering is reduced to the data a template receives. */
module CtfApp {
  import opened Wrappers
  import opened Exceptions
  import opened Leaderboard
  import UsosApi

  const DefaultLocale := "pl"
  const Scopes := "email"
  /** The profile fields login asks the identity service for. */
  const ProfileFields := "id|first_name|last_name|email|photo_urls[200x200]"

  const PleaseLogIn := Flash("Please log in to access this page.", "danger")
  const AuthenticationFailed := Flash("Error during USOS authentication. Please try again.", "danger")
  const CorrectFlag := Flash("Correct flag! Well done!", "success")
  const IncorrectFlag := Flash("Incorrect flag. Try again!", "danger")

  datatype User = User(id: string, firstName: string, lastName: string, email: string, photoUrl: string)

  datatype Challenge = Challenge(
    id: int, number: int, editionNumber: int,
    name: string, namePl: string, description: string, descriptionPl: string,
    startDate: int, flag: string)

  datatype Solve = Solve(userId: string, challengeId: int, solveTime: int)

  datatype Flash = Flash(message: string, category: string)

  /** The session keys the handlers use: loggedIn is the presence of
      "logged_in", user the "user" dictionary, lang the chosen language,
      flashes the queued flash messages. */
  datatype FlaskSession = FlaskSession(loggedIn: bool, user: Option<User>, lang: Option<string>, flashes: seq<Flash>)

  datatype Page =
    | LoginPage
    | ChallengePage(chId: int, chName: string, chDesc: string, userRating: int, userComment: string, topSolvers: seq<TopSolver>)

  datatype Target = Endpoint(name: string) | Referrer

  /** What a handler returns; an exception that escapes is a Failure around it. */
  datatype Reply = Redirect(target: Target) | Render(page: Page) | NotFound

  /** The locale selector: the session's language, Polish by default. */
  function GetLocale(session: FlaskSession): (r: string)
    ensures session.lang.None? ==> r == DefaultLocale
    ensures session.lang.Some? ==> r == session.lang.value
  {
    match session.lang
    case None => DefaultLocale
    case Some(lang) => lang
  }

  /** A request argument Python treats as true: present and non-empty. */
  predicate Present(arg: Option<string>) {
    arg.Some? && arg.value != ""
  }

  /** The first row of the table that matches (query.filter_by(...).first()). */
  function FindChallenge(table: seq<Challenge>, matches: Challenge -> bool): (r: Option<nat>)
    ensures r.Some? ==> r.value < |table| && matches(table[r.value])
    ensures r.Some? ==> forall k :: 0 <= k < r.value ==> !matches(table[k])
    ensures r.None? ==> forall k :: 0 <= k < |table| ==> !matches(table[k])
  {
    if table == [] then None
    else if matches(table[0]) then Some(0)
    else match FindChallenge(table[1..], matches)
      case None => None
      case Some(k) => Some(k + 1)
  }

  /** Whether the user already has a solve of the challenge. */
  predicate Solved(solves: seq<Solve>, userId: string, challengeId: int) {
    exists i :: 0 <= i < |solves| && solves[i].userId == userId && solves[i].challengeId == challengeId
  }

  /** No (user, challenge) pair is solved twice. */
  ghost predicate OneSolvePerPair(solves: seq<Solve>) {
    forall i, j :: 0 <= i < j < |solves| ==>
      solves[i].userId != solves[j].userId || solves[i].challengeId != solves[j].challengeId
  }

  function RowOf(user: User, solve: Solve): Solution {
    Solution(user.firstName, user.lastName, solve.solveTime)
  }

  /** The positions of the solves whose user exists, in increasing order:
      the solves an inner join with the users table keeps. */
  function JoinedPositions(users: map<string, User>, solves: seq<Solve>): (idx: seq<nat>)
    ensures forall k :: 0 <= k < |idx| ==> idx[k] < |solves| && solves[idx[k]].userId in users
    ensures forall k, l :: 0 <= k < l < |idx| ==> idx[k] < idx[l]
    ensures forall i :: 0 <= i < |solves| && solves[i].userId in users ==> i in idx
  {
    if solves == [] then []
    else
      var n := |solves| - 1;
      var front := JoinedPositions(users, solves[..n]);
      if solves[n].userId in users then front + [n] else front
  }

  /** The join of users and solves on User.id == Solve.user_id: one row per
      solve whose user exists, in solve order. */
  function JoinRows(users: map<string, User>, solves: seq<Solve>): (r: seq<Solution>)
    ensures var idx := JoinedPositions(users, solves);
      && |r| == |idx|
      && forall k :: 0 <= k < |r| ==> r[k] == RowOf(users[solves[idx[k]].userId], solves[idx[k]])
    ensures |r| <= |solves|
    ensures (forall i :: 0 <= i < |solves| ==> solves[i].userId in users) ==> |r| == |solves|
  {
    if solves == [] then []
    else
      var n := |solves| - 1;
      var front := JoinRows(users, solves[..n]);
      var s := solves[n];
      if s.userId in users then front + [RowOf(users[s.userId], s)] else front
  }

  /** A profile field that must be a string. */
  function StringField(j: UsosApi.Json, key: string): (r: Result<string, Error>)
    ensures r.Success? <==> j.JObject? && key in j.fields && j.fields[key].JStr?
    ensures r.Success? ==> j.fields[key] == UsosApi.JStr(r.value)
  {
    var v :- UsosApi.Subscript(j, key);
    if v.JStr? then Success(v.s) else Failure(TypeError)
  }

  /** The user record login builds from the identity service's reply,
      reading id, first_name, last_name, email and photo_urls["200x200"]. */
  function ParseProfile(data: UsosApi.Json): (r: Result<User, Error>)
    ensures r.Success? <==>
      && data.JObject?
      && (forall key :: key in ["id", "first_name", "last_name", "email"] ==>
            key in data.fields && data.fields[key].JStr?)
      && "photo_urls" in data.fields
      && data.fields["photo_urls"].JObject?
      && "200x200" in data.fields["photo_urls"].fields
      && data.fields["photo_urls"].fields["200x200"].JStr?
    ensures r.Success? ==>
      && data.fields["id"] == UsosApi.JStr(r.value.id)
      && data.fields["first_name"] == UsosApi.JStr(r.value.firstName)
      && data.fields["last_name"] == UsosApi.JStr(r.value.lastName)
      && data.fields["email"] == UsosApi.JStr(r.value.email)
      && data.fields["photo_urls"].fields["200x200"] == UsosApi.JStr(r.value.photoUrl)
  {
    var id :- StringField(data, "id");
    var firstName :- StringField(data, "first_name");
    var lastName :- StringField(data, "last_name");
    var email :- StringField(data, "email");
    var photos :- UsosApi.Subscript(data, "photo_urls");
    var photoUrl :- StringField(photos, "200x200");
    Success(User(id, firstName, lastName, email, photoUrl))
  }

  /** The application state: the database tables, the current client's
      session, and the one shared USOS API broker. */
  class Site {
    const usos: UsosApi.UsosApiSession
    var users: map<string, User>
    var challenges: seq<Challenge>
    var solves: seq<Solve>
    var session: FlaskSession

    ghost predicate Valid()
      reads this, usos
    {
      OneSolvePerPair(solves) && usos.Valid()
    }

    constructor (apiBaseAddress: string, challenges: seq<Challenge>)
      ensures Valid() && fresh(usos)
      ensures usos.baseAddress == UsosApi.NormalizeBase(apiBaseAddress) && usos.scopes == Scopes
      ensures usos.authSessions == map[] && usos.authorizedSession == None
      ensures users == map[] && this.challenges == challenges && solves == []
      ensures session == FlaskSession(false, None, None, [])
    {
      usos := new UsosApi.UsosApiSession(apiBaseAddress, Scopes);
      users := map[];
      this.challenges := challenges;
      solves := [];
      session := FlaskSession(false, None, None, []);
    }

    /** The login_required decorator: admit the request when "logged_in" is in
        the session; otherwise queue the log-in flash and let the caller
        redirect without running the handler. */
    method LoginRequired() returns (admitted: bool)
      modifies this`session
      ensures admitted == old(session).loggedIn
      ensures admitted ==> session == old(session)
      ensures !admitted ==> session == old(session).(flashes := old(session).flashes + [PleaseLogIn])
    {
      admitted := session.loggedIn;
      if !admitted {
        session := session.(flashes := session.flashes + [PleaseLogIn]);
      }
    }

    /** GET /login: with a request token and a verifier, complete the OAuth
        exchange, fetch the profile, create the user on first login only,
        and mark the session logged in. An authorization error from the
        exchange or from the profile fetch shows the login page with a flash;
        any other error escapes. */
    method Login(oauthToken: Option<string>, oauthVerifier: Option<string>,
                 accessToken: UsosApi.AccessTokenLeg, post: UsosApi.SignedPost)
      returns (r: Result<Reply, Error>)
      requires Valid()
      modifies this, usos
      ensures Valid()
      ensures solves == old(solves) && challenges == old(challenges)
      ensures !(Present(oauthToken) && Present(oauthVerifier)) ==>
        && r == Success(Render(LoginPage))
        && users == old(users) && session == old(session)
        && usos.authSessions == old(usos.authSessions)
        && usos.authorizedSession == old(usos.authorizedSession)
      ensures Present(oauthToken) && Present(oauthVerifier) ==>
        usos.authSessions == old(usos.authSessions) - {oauthToken.value}
      ensures forall id :: id in old(users) ==> id in users && users[id] == old(users)[id]
      ensures r == Success(Redirect(Endpoint("home"))) ==>
        && session.loggedIn && session.user.Some?
        && session == old(session).(loggedIn := true, user := session.user)
        && usos.authorizedSession.Some?
        && (var data := UsosApi.Received(post(usos.authorizedSession, usos.baseAddress + UsosApi.UserService, map["fields" := ProfileFields]));
            data.Success? && ParseProfile(data.value) == Success(session.user.value))
        && (var user := session.user.value;
            users == if user.id in old(users) then old(users) else old(users)[user.id := user])
      ensures r != Success(Redirect(Endpoint("home"))) ==>
        && users == old(users)
        && session.loggedIn == old(session).loggedIn && session.user == old(session).user
        && session.lang == old(session).lang
      ensures r == Success(Render(LoginPage)) && Present(oauthToken) && Present(oauthVerifier) ==>
        session.flashes == old(session).flashes + [AuthenticationFailed]
      ensures Present(oauthToken) && Present(oauthVerifier) && oauthToken.value !in old(usos.authSessions) ==>
        && r == Success(Render(LoginPage))
        && session == old(session).(flashes := old(session).flashes + [AuthenticationFailed])
        && usos.authorizedSession == old(usos.authorizedSession)
      ensures Present(oauthToken) && Present(oauthVerifier) && oauthToken.value in old(usos.authSessions) ==>
        var token := oauthToken.value;
        var exchange := accessToken(token, old(usos.authSessions)[token].secret, oauthVerifier.value);
        && (exchange.Failure? ==> usos.authorizedSession == old(usos.authorizedSession))
        && (exchange.Failure? && UsosApi.ExchangeFailure(exchange.error).AuthorizationFailed? ==>
              && r == Success(Render(LoginPage))
              && session == old(session).(flashes := old(session).flashes + [AuthenticationFailed]))
        && (exchange.Failure? && !UsosApi.ExchangeFailure(exchange.error).AuthorizationFailed? ==>
              r == Failure(UsosApi.ExchangeFailure(exchange.error)) && session == old(session))
        && (exchange.Success? ==>
              var data := UsosApi.Received(post(Some(exchange.value), usos.baseAddress + UsosApi.UserService, map["fields" := ProfileFields]));
              && usos.authorizedSession == Some(exchange.value)
              && (data.Failure? && data.error.AuthorizationFailed? ==>
                    && r == Success(Render(LoginPage))
                    && session == old(session).(flashes := old(session).flashes + [AuthenticationFailed]))
              && (data.Failure? && !data.error.AuthorizationFailed? ==> r == Failure(data.error) && session == old(session))
              && (data.Success? && ParseProfile(data.value).Failure? ==>
                    r == Failure(ParseProfile(data.value).error) && session == old(session))
              && (data.Success? && ParseProfile(data.value).Success? ==>
                    var user := ParseProfile(data.value).value;
                    && r == Success(Redirect(Endpoint("home")))
                    && session == old(session).(loggedIn := true, user := Some(user))
                    && users == if user.id in old(users) then old(users) else old(users)[user.id := user]))
    {
      if !(Present(oauthToken) && Present(oauthVerifier)) {
        return Success(Render(LoginPage));
      }
      var authorized := usos.Authorize(oauthToken.value, oauthVerifier.value, accessToken);
      if authorized.Failure? {
        if authorized.error.AuthorizationFailed? {
          session := session.(flashes := session.flashes + [AuthenticationFailed]);
          return Success(Render(LoginPage));
        }
        return Failure(authorized.error);
      }
      var userData := usos.FetchFromService(UsosApi.UserService, map["fields" := ProfileFields], post);
      if userData.Failure? {
        if userData.error.AuthorizationFailed? {
          session := session.(flashes := session.flashes + [AuthenticationFailed]);
          return Success(Render(LoginPage));
        }
        return Failure(userData.error);
      }
      var user := ParseProfile(userData.value);
      if user.Failure? {
        return Failure(user.error);
      }
      if user.value.id !in users {
        users := users[user.value.id := user.value];
      }
      session := session.(loggedIn := true, user := Some(user.value));
      r := Success(Redirect(Endpoint("home")));
    }

    /** GET /challenge/<edition>/<number>: the challenge in the session's
        language and the top solvers, which are drawn from every solve in
        the table, whatever challenge it was for. */
    method ChallengeView(editionNumber: int, challengeNumber: int) returns (r: Result<Reply, Error>)
      modifies this`session
      ensures !old(session).loggedIn ==>
        r == Success(Redirect(Endpoint("login"))) && session == old(session).(flashes := old(session).flashes + [PleaseLogIn])
      ensures old(session).loggedIn ==> session == old(session)
      ensures old(session).loggedIn ==>
        var found := FindChallenge(challenges, (c: Challenge) => c.editionNumber == editionNumber && c.number == challengeNumber);
        && (found.None? ==> r == Success(NotFound))
        && (found.Some? ==>
              var ch := challenges[found.value];
              var polish := GetLocale(session) == "pl";
              var solvers := TopSolvers(TopSolutions(JoinRows(users, solves)), ch.startDate);
              && (solvers.Failure? ==> r == Failure(IndexError))
              && (solvers.Success? ==>
                    r == Success(Render(ChallengePage(
                      ch.id,
                      if polish then ch.namePl else ch.name,
                      if polish then ch.descriptionPl else ch.description,
                      0, "", solvers.value)))))
    {
      var admitted := LoginRequired();
      if !admitted {
        return Success(Redirect(Endpoint("login")));
      }
      var lang := GetLocale(session);
      var found := FindChallenge(challenges, (c: Challenge) => c.editionNumber == editionNumber && c.number == challengeNumber);
      if found.None? {
        return Success(NotFound);
      }
      var ch := challenges[found.value];
      var name := if lang == "pl" then ch.namePl else ch.name;
      var description := if lang == "pl" then ch.descriptionPl else ch.description;
      var top := TopSolutions(JoinRows(users, solves));
      var solvers := TopSolvers(top, ch.startDate);
      if solvers.Failure? {
        return Failure(solvers.error);
      }
      r := Success(Render(ChallengePage(ch.id, name, description, 0, "", solvers.value)));
    }

    /** POST /submit_flag/<challenge_id>: record a solve at time now when the
        flag matches exactly and the user has not solved the challenge yet. */
    method SubmitFlag(challengeId: int, userFlag: Option<string>, now: int) returns (r: Result<Reply, Error>)
      requires Valid()
      modifies this`session, this`solves
      ensures Valid()
      ensures !old(session).loggedIn ==>
        && r == Success(Redirect(Endpoint("login")))
        && session == old(session).(flashes := old(session).flashes + [PleaseLogIn])
        && solves == old(solves)
      ensures old(session).loggedIn ==>
        var found := FindChallenge(challenges, (c: Challenge) => c.id == challengeId);
        && (found.None? ==> r == Success(NotFound) && session == old(session) && solves == old(solves))
        && (found.Some? && userFlag != Some(challenges[found.value].flag) ==>
              && r == Success(Redirect(Referrer))
              && session == old(session).(flashes := old(session).flashes + [IncorrectFlag])
              && solves == old(solves))
        && (found.Some? && userFlag == Some(challenges[found.value].flag) && old(session).user.None? ==>
              r == Failure(KeyError("user")) && session == old(session) && solves == old(solves))
        && (found.Some? && userFlag == Some(challenges[found.value].flag) && old(session).user.Some? ==>
              var userId := old(session).user.value.id;
              && r == Success(Redirect(Referrer))
              && session == old(session).(flashes := old(session).flashes + [CorrectFlag])
              && solves == if Solved(old(solves), userId, challengeId) then old(solves)
                           else old(solves) + [Solve(userId, challengeId, now)])
    {
      var admitted := LoginRequired();
      if !admitted {
        return Success(Redirect(Endpoint("login")));
      }
      var found := FindChallenge(challenges, (c: Challenge) => c.id == challengeId);
      if found.None? {
        return Success(NotFound);
      }
      var correct := challenges[found.value];
      if userFlag == Some(correct.flag) {
        if session.user.None? {
          return Failure(KeyError("user"));
        }
        var userId := session.user.value.id;
        if !Solved(solves, userId, challengeId) {
          solves := solves + [Solve(userId, challengeId, now)];
        }
        session := session.(flashes := session.flashes + [CorrectFlag]);
      } else {
        session := session.(flashes := session.flashes + [IncorrectFlag]);
      }
      r := Success(Redirect(Referrer));
    }
  }
}
