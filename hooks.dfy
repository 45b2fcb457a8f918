/** The server hook of src/hooks.server.ts: HTTP Basic authentication (section
    2 of RFC 7617) in front of every page, API routes excepted. Base64
    decoding (`atob`, section 4 of RFC 4648) is a partial function given as
    a parameter; where it fails the hook throws. */
module Hooks {
  import opened Wrappers
  import opened Text
  import opened LeadService

  /** What the hook does with a request: hands it on, answers 401 with a
      challenge header, or throws (the uncaught `atob` failure). */
  datatype HookOutcome =
    | Resolve
    | Unauthorized(status: int, body: string, challengeHeader: string, challenge: string)
    | Throws

  const Challenge: string := "Basic realm=\"Lead CRM\""

  /** `const [scheme, encoded] = auth.split(' ')`, kept when the scheme is
      exactly `Basic` and the second piece is not empty. */
  function BasicToken(authorization: Option<string>): (token: Option<string>)
    ensures token.Some? ==> token.value != "" && ' ' !in token.value
  {
    if !Truthy(authorization) then None
    else
      var pieces := Split(authorization.value, ' ');
      if pieces[0] == "Basic" && |pieces| >= 2 && pieces[1] != "" then
        assert pieces[1] in pieces;
        Some(pieces[1])
      else None
  }

  /** `passParts.join(':')`: everything after the first piece, rejoined. */
  function JoinRest(pieces: seq<string>): string
  {
    if |pieces| <= 1 then "" else Join(pieces[1..], ':')
  }

  /** `handle`. */
  function Handle(path: string, user: Option<string>, pass: Option<string>, authorization: Option<string>,
                  atob: string -> Option<string>): (r: HookOutcome)
    ensures StartsWith(path, "/api/") ==> r == Resolve
    ensures !Truthy(user) || !Truthy(pass) ==> r == Resolve
    ensures r.Unauthorized? ==> r.status == 401 && r.body == "Unauthorized" && r.challengeHeader == "WWW-Authenticate" && r.challenge == Challenge
    ensures r.Throws? <==>
              && !StartsWith(path, "/api/") && Truthy(user) && Truthy(pass)
              && BasicToken(authorization).Some? && atob(BasicToken(authorization).value).None?
  {
    if StartsWith(path, "/api/") then Resolve
    else if !Truthy(user) || !Truthy(pass) then Resolve
    else
      var token := BasicToken(authorization);
      if token.Some? then
        match atob(token.value)
        case None => Throws
        case Some(decoded) =>
          var pieces := Split(decoded, ':');
          if pieces[0] == user.value && JoinRest(pieces) == pass.value then Resolve
          else Unauthorized(401, "Unauthorized", "WWW-Authenticate", Challenge)
      else Unauthorized(401, "Unauthorized", "WWW-Authenticate", Challenge)
  }

  /** The position of the first colon. */
  function FirstColon(s: string): (k: Option<nat>)
    ensures k.Some? ==> k.value < |s| && s[k.value] == ':' && ':' !in s[..k.value]
    ensures k.None? ==> ':' !in s
  {
    if s == [] then None
    else if s[0] == ':' then Some(0)
    else
      match FirstColon(s[1..])
      case None => None
      case Some(j) =>
        assert s[..j + 1] == [s[0]] + s[1..][..j];
        Some(j + 1)
  }

  /** The user-id and password of decoded credentials, split at the first
      colon as section 2 of RFC 7617 has it; without a colon the password is
      empty. */
  function UserPass(decoded: string): (string, string)
  {
    match FirstColon(decoded)
    case None => (decoded, "")
    case Some(k) => (decoded[..k], decoded[k + 1..])
  }

  /** Splitting on every colon and rejoining all but the first piece is the
      same as splitting at the first colon. */
  lemma SplitAtFirstColon(decoded: string)
    ensures Split(decoded, ':')[0] == UserPass(decoded).0
    ensures JoinRest(Split(decoded, ':')) == UserPass(decoded).1
  {
    match FirstColon(decoded)
    case None =>
      SplitNoSep(decoded, ':');
    case Some(k) =>
      SplitHead(decoded, ':', k);
      SplitCount(decoded, ':');
      JoinSplit(decoded[k + 1..], ':');
  }

  /** Past the API exception and with both variables set, a request is let
      through exactly when its Basic token decodes to the configured user-id
      and password. */
  lemma HandleAdmitsExactlyTheCredentials(path: string, user: string, pass: string,
                                          authorization: Option<string>, atob: string -> Option<string>)
    requires !StartsWith(path, "/api/") && user != "" && pass != ""
    ensures Handle(path, Some(user), Some(pass), authorization, atob) == Resolve
            <==> && BasicToken(authorization).Some?
                 && atob(BasicToken(authorization).value).Some?
                 && UserPass(atob(BasicToken(authorization).value).value) == (user, pass)
  {
    var token := BasicToken(authorization);
    if token.Some? && atob(token.value).Some? {
      SplitAtFirstColon(atob(token.value).value);
    }
  }

  /** A header "Basic <token>" whose token decodes to "user:password" (the
      user-id without a colon, the password anything) is let through. */
  lemma BasicCredentialsRoundTrip(path: string, user: string, pass: string, token: string,
                                  atob: string -> Option<string>)
    requires !StartsWith(path, "/api/") && user != "" && pass != ""
    requires token != "" && ' ' !in token && ':' !in user
    requires atob(token) == Some(user + ":" + pass)
    ensures Handle(path, Some(user), Some(pass), Some("Basic " + token), atob) == Resolve
  {
    var header := "Basic " + token;
    assert header == "Basic" + [' '] + token;
    SplitPrefix("Basic", token, ' ');
    SplitNoSep(token, ' ');
    assert BasicToken(Some(header)) == Some(token);
    var decoded := user + ":" + pass;
    assert decoded == user + [':'] + pass;
    SplitPrefix(user, pass, ':');
    JoinSplit(pass, ':');
    assert Split(decoded, ':')[1..] == Split(pass, ':');
  }

  /** Only the second space-separated piece is read: with two spaces after
      the scheme the token is empty and the request is refused. */
  lemma DoubleSpaceRefused(path: string, user: string, pass: string, token: string,
                           atob: string -> Option<string>)
    requires !StartsWith(path, "/api/") && user != "" && pass != ""
    ensures Handle(path, Some(user), Some(pass), Some("Basic  " + token), atob)
            == Unauthorized(401, "Unauthorized", "WWW-Authenticate", Challenge)
  {
    var header := "Basic  " + token;
    assert header == "Basic" + [' '] + ([' '] + token);
    SplitPrefix("Basic", [' '] + token, ' ');
    assert Split([' '] + token, ' ')[0] == "" by {
      assert ([' '] + token)[0] == ' ';
    }
  }
}
