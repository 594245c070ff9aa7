# EE CTF Platform: the USOS session broker and the route decisions, in Dafny

This project models the two pieces of logic in the EE CTF Platform, a web
Capture-The-Flag site whose users log in through the USOS identity provider
(OAuth 1.0).

- **The USOS API session broker** (`usosapi/usosapi.py`, module `UsosApi`,
  class `UsosApiSession`). It implements the three-legged OAuth 1.0 flow of
  RFC 5849, sections 2.1 to 2.3. Three pieces of state are modelled:
  - a map of pending request tokens to their secret and issue time;
  - one shared authorized session, either none or one access-token pair;
  - the normalised base address with its three endpoint URLs.

  Tokens go into the map in `GetAuthUrl`. `Authorize` takes the token out
  before the exchange, so a token can be spent only once. `CleanupAuthSessions`
  sweeps out entries older than 1800 seconds. Every signed fetch goes through
  the installed session. The provider's three legs are parameters: each maps
  what is sent to either a reply or the error the call raises. So every
  answer the provider could give is covered, and so is every error a request
  could raise (connection failures and timeouts included).
- **The decisions inside the route handlers** (`app.py`, module `CtfApp`,
  class `Site`, and module `Leaderboard`). They run over an abstract store:
  users as a map keyed by id, challenges and solves as sequences in row
  order, and the Flask session as a value. Modelled here:
  - the `login_required` gate;
  - the locale selector;
  - first-login user creation in `login`;
  - the flag-submission rule of `submit_flag`;
  - the challenge page's top-solver list (the ten earliest solves, with a nick
    and the formatted time since the challenge opened).

Supporting modules: `Wrappers` (Option, Result), `Exceptions` (the Python
exceptions that can escape, as values) and `Decimal` (how Python writes an
int as text, plus a reader that makes the rendering checkable).

Exceptions are modelled as `Failure` results. An exception a handler does not
catch shows up as a `Failure` from that handler.

Timestamps:
- The broker's clock is an integer number of seconds, passed in.
- In `app.py`, datetimes are integers counting microseconds. This makes
  `timedelta`'s split into days and seconds exact, negative differences
  included.

Some behaviours of the broker worth knowing:
- Inserting a request token that is already pending overwrites its entry
  (`usosapi/usosapi.py:52-53`).
- When the identity probe in `resume_session` fails, the resumed credentials
  stay installed (`usosapi/usosapi.py:78-85`).
- `cleanup_auth_sessions` is a single sweep; nothing in the broker schedules it
  (`usosapi/usosapi.py:127-140`).
- `is_session_authorized` catches only the not-authorized error, wherever it
  is raised. HTTP errors, decoding errors, request errors and a missing `"id"`
  escape to the caller (`usosapi/usosapi.py:109-117`).
- `get_auth_url` uses the out-of-band callback `"oob"` when the caller gives
  none (`usosapi/usosapi.py:47`); the model's `callback` parameter has that
  default.

The top-solver list on a challenge page comes from all solves, joined with
users. It is not filtered by the challenge on display. The elapsed time is
measured from that challenge's start, so it can be negative. The model keeps
this as written (`CtfApp.Site.ChallengeView`).

## Model

| member | source | states |
|---|---|---|
| UsosApi.NormalizeBase | usosapi/usosapi.py:27-29 | the result ends with "/"; the input is a prefix of it, at most one character shorter; the result equals the input exactly when the input already ends with "/" |
| UsosApi.UsosApiSession.constructor | usosapi/usosapi.py:24-45 | base address is the normalised input; each endpoint URL is base + its fixed suffix; no pending tokens; no authorized session |
| UsosApi.UsosApiSession.GetAuthUrl | usosapi/usosapi.py:47-55 | the callback is "oob" unless given; on a failed request-token leg: the failure escapes and the store is unchanged; otherwise the store maps the new token to its secret stamped with now (overwriting any entry for it), every other entry is unchanged, and the token and the authorize page for it are returned |
| UsosApi.UsosApiSession.Authorize | usosapi/usosapi.py:57-72 | an absent token fails with "Invalid request token" and changes nothing; a present token is removed before the exchange, whatever the outcome; success installs exactly the granted pair; a KeyError becomes "Consumer key or token key does not match" and other failures pass through, and on any failure the previous session stays; the token is never pending afterwards |
| UsosApi.AuthorizeIsSingleUse | usosapi/usosapi.py:57-62 | a second authorize with the same token fails with "Invalid request token", even when the first exchange failed |
| UsosApi.UsosApiSession.GetAccessData | usosapi/usosapi.py:74-76 | returns the installed pair exactly when a session is installed; otherwise an AttributeError |
| UsosApi.UsosApiSession.ResumeSession | usosapi/usosapi.py:78-85 | installs exactly the given pair, which stays installed; the result is success when the probe finds a truthy id, "Error resuming USOSAPI session" when the id is falsy, and the probe's own error otherwise |
| UsosApi.ResumedCredentialsReadBack | usosapi/usosapi.py:74-85 | after resume, get_access_data returns the resumed pair, whether or not the probe succeeded |
| UsosApi.UsosApiSession.FetchFromService | usosapi/usosapi.py:87-98 | with no session: the not-authorized error, and no POST is consulted; otherwise the POST signed with the installed session to base + service: its own error escapes, and a reply goes through raise_for_status and json() |
| UsosApi.UsosApiSession.FetchAnonymouslyFromService | usosapi/usosapi.py:100-107 | the POST signed with the consumer credentials only, to base + service: its own error escapes, and a reply goes through raise_for_status and json() |
| UsosApi.Received | usosapi/usosapi.py:93-98 | an error raised by the POST itself escapes unchanged; a reply is decoded as Decode says |
| UsosApi.Decode | usosapi/usosapi.py:95-98 | succeeds exactly for a non-4xx/5xx status with a JSON body, and yields that body; a 4xx/5xx status gives HttpError with that status; otherwise a decoding error |
| UsosApi.Subscript | usosapi/usosapi.py:115 | the value under the key exactly when the JSON value is an object holding it; KeyError for a missing key; TypeError for a non-object |
| UsosApi.UsosApiSession.IsSessionAuthorized | usosapi/usosapi.py:109-117 | with no session: false, whatever the provider would answer; otherwise the truth value of the current user's "id"; a not-authorized error gives false, and request, HTTP, decoding and lookup errors escape |
| UsosApi.UsosApiSession.CloseSession | usosapi/usosapi.py:119-125 | with no session: success and nothing changes; otherwise the revoke call's error escapes with the session kept, and a successful revoke leaves no session |
| UsosApi.Unexpired | usosapi/usosapi.py:127-133 | keeps exactly the entries with now - timestamp <= 1800 (an entry aged exactly 1800 stays), each unchanged |
| UsosApi.UsosApiSession.CleanupAuthSessions | usosapi/usosapi.py:127-140 | the store becomes exactly its unexpired part; the returned (logged) count equals the number of tokens removed, and count + survivors = entries before |
| UsosApi.SweepRemovesExpired | usosapi/usosapi.py:132-138 | deleting the expired tokens leaves the unexpired part; the deleted keys are exactly the expired ones; kept + deleted = all |
| CtfApp.GetLocale | app.py:43-45 | the session's language when one is set, otherwise "pl" |
| CtfApp.Site.constructor | app.py:34-40 | a broker on the normalised base address with scopes "email" and empty stores; no solves, so at most one solve per (user, challenge) holds |
| CtfApp.Site.LoginRequired | app.py:53-60 | admits exactly when "logged_in" is in the session and then changes nothing; otherwise queues the log-in flash, and the handlers then redirect to login without running |
| CtfApp.Site.Login | app.py:81-125 | without both a token and a verifier: the login page, nothing changes; otherwise exactly that token leaves the pending store (every other pending token stays), and the outcome follows the exchange for it: an unknown token or a failed exchange keeps the previous authorized session; an unknown token or an authorization error gives the login page with the error flash, any other exchange error escapes; after a granted exchange, the signed user fetch with the granted pair decides: an authorization error from it gives the login page with the flash, any other fetch error or a malformed profile escapes with the session unchanged, and a parsed profile logs the session in with it, inserts the user row only when the id is absent and redirects home; existing rows never change |
| CtfApp.ParseProfile | app.py:93-97 | succeeds exactly when the reply holds id, first_name, last_name, email and photo_urls["200x200"] as strings, and the user carries exactly those values |
| CtfApp.StringField | app.py:93-97 | succeeds exactly when the object holds the key with a string value, and yields that string |
| CtfApp.FindChallenge | app.py:146 | the index of the first row matching the filter, with no match before it; none exactly when no row matches |
| CtfApp.JoinedPositions | app.py:153-158 | exactly the positions of the solves whose user exists, in increasing order |
| CtfApp.JoinRows | app.py:153-158 | row k is the joined row of the k-th position JoinedPositions lists: one row per solve whose user exists, in solve order, so duplicates keep their multiplicity; no solve is dropped when every solve's user exists |
| Leaderboard.InsertByTime | app.py:159 | inserting into a time-sorted list keeps it sorted and adds exactly the one row |
| Leaderboard.SortByTime | app.py:159 | the rows sorted by ascending solve time, as a permutation of the input |
| Leaderboard.TopSolutions | app.py:153-161 | min(10, n) rows in nondecreasing solve-time order, drawn from the input (as a multiset), with every row left out no earlier than every row kept |
| Leaderboard.TimeDifference | app.py:163-168 | hours in 0..23, minutes and seconds in 0..59, and days·86400 + hours·3600 + minutes·60 + seconds is the elapsed time rounded down to whole seconds (days may be negative) |
| Decimal.ShowInt | app.py:169 | a leading "-" exactly for negative numbers, followed by the decimal digits of the magnitude |
| Decimal.ParseShowNat | app.py:169 | the digits written for n read back as n |
| Leaderboard.ParseRenderDuration | app.py:169 | the rendered text reads back as "{days}d {hours}h {minutes}m {seconds}s" with exactly the four parts |
| Leaderboard.FormatTimeDifferenceReadsBack | app.py:163-169 | the text of format_time_difference (Leaderboard.FormatTimeDifference) reads back as four numbers in range whose total is the whole-second elapsed time |
| Leaderboard.Nick | app.py:172 | for a non-empty last name: first name, a space, the last name's first character, "."; an IndexError exactly when the last name is empty |
| Leaderboard.TopSolvers | app.py:171-174 | one entry per row, in order, each with that row's nick and formatted time; an IndexError exactly when some last name is empty |
| CtfApp.Site.ChallengeView | app.py:142-184 | behind the login gate: not found when no challenge matches; otherwise the name and description in Polish exactly when the locale is "pl", and the top solvers of all solves, or the IndexError |
| CtfApp.Site.SubmitFlag | app.py:187-207 | behind the login gate: not found for an unknown challenge; an incorrect flag changes no solve; a correct flag appends exactly one solve for (user, challenge) at now when there is none yet, and otherwise changes none; at most one solve per (user, challenge) is preserved |

## Left out

- Threads and locks are not modelled; every operation runs sequentially. In the code, `close_session` holds the non-reentrant session lock and then calls `fetch_from_service`, which takes the same lock again. So the revoke path would deadlock. The model gives only the sequential post-state.
- OAuth signing, the HTTP calls and rauth's internals (`get_request_token`, `get_authorize_url`, `get_auth_session`, `get_session`, `post`) are parameters. Nothing is assumed about them beyond their results. The consumer key and secret are used only for signing, so they do not appear.
- UsosApi.UsosApiSession.GetAuthUrl: the authorize page is returned as the URL and its query pairs. rauth's percent-encoding of the query string is not modelled.
- UsosApi.UsosApiSession.FetchFromService: the request URL is modelled as base address + service path. rauth joins the two with `urljoin`, which gives something else for absolute URLs or paths that start with "/". The same applies to FetchAnonymouslyFromService.
- UsosApi.UsosApiSession.CleanupAuthSessions: the clock counts whole seconds, not `time.time()`'s fractional seconds. An age such as 1800.1 seconds cannot be expressed.
- UsosApi.Json: JSON numbers are integers only. Floats are not modelled.
- CtfApp.ParseProfile: a profile field that is not a JSON string is rejected with a TypeError. The source would store that value as it is.
- Leaderboard.SortByTime: the database leaves the order of equal solve times unspecified. The model fixes one order. Its contract states only sortedness and permutation.
- Flask itself is not modelled: routing, templates, Babel (flash messages keep their untranslated text), and `abort(404)`, which becomes a `NotFound` reply. Database sessions and commits become updates to the store fields. A commit that fails is not modelled.
- The other routes (`home`, `profile`, `logout`, `change_language`, `usos_auth`) are not modelled. Neither are `model/models.py` (schema only; `is_available` is a single comparison), `temp/add_challenges.py`, `static/js/challenge.js` and `run.py`.
- Solve rows have an auto-increment id that is not modelled. The challenge id from the URL is an integer here; SQLAlchemy converts the string.
