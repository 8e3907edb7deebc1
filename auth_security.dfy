/** The authentication filter and the security services it relies on.
    BCrypt hashing and the HS256 JSON Web Token signer with the platform's key
    are uninterpreted functions. The filter reads the Authorization header as
    in section 2.1 of RFC 6750 (the "Bearer" scheme followed by the token).
    It then either lets the request through untouched, aborts it with a 401,
    or installs a security context that names the token's subject. */
module AuthSecurity {
  import opened Common

  /** The header prefix the filter requires, compared case-sensitively. */
  const BEARER_PREFIX: string := "Bearer "
  /** SecurityService.EXPIRATION_TIME: 24 hours, in milliseconds. */
  const EXPIRATION_TIME: int := 86400000
  /** The entity of the 401 for a token that does not validate. */
  const INVALID_TOKEN: string := "Token invalide ou expiré"
  /** The scheme the filter's security context reports. */
  const BEARER_SCHEME: string := "Bearer"

  /** The "role" claim as claims.get("role", String.class) sees it: absent
      (null), a string, or a value of another type (which makes get throw). */
  datatype RoleClaim = NoRole | RoleText(text: string) | RoleNotText

  /** The body of a signed token. */
  datatype Claims = Claims(subject: Option<string>, role: RoleClaim, userId: Option<int>, issuedAt: int, expiration: int)

  /** SecurityService. hashpw takes the salt that BCrypt.gensalt() draws at
      random as an argument. checkpw reads an exception as a mismatch. sign is
      the compact signed form of a claim set. parse is validateToken at a given
      time, None standing for its null (bad signature, expired, malformed). */
  datatype SecurityService = SecurityService(
    hashpw: (string, string) -> string,
    checkpw: (string, string) -> bool,
    sign: Claims -> string,
    parse: (string, int) -> Option<Claims>)

  /** The claims generateToken signs: the role and the user id, with the user
      name as subject, issued now and expiring 24 hours later. */
  function TokenClaims(username: string, role: string, id: int, now: int): (c: Claims)
    ensures c.subject == Some(username) && c.role == RoleText(role) && c.userId == Some(id)
    ensures c.issuedAt == now && c.expiration - c.issuedAt == EXPIRATION_TIME
  {
    Claims(Some(username), RoleText(role), Some(id), now, now + EXPIRATION_TIME)
  }

  function GenerateToken(sec: SecurityService, username: string, role: string, id: int, now: int): string
  {
    sec.sign(TokenClaims(username, role, id, now))
  }

  /** checkPassword: a null password makes BCrypt throw, which reads as false. */
  function CheckPassword(sec: SecurityService, password: Option<string>, hashed: string): bool
  {
    password.Some? && sec.checkpw(password.value, hashed)
  }

  // ---------------------------------------------------------------------------
  // The Authorization header
  // ---------------------------------------------------------------------------

  /** The token of a header of the form "Bearer <token>": everything after the
      first seven characters. None for a missing header or another scheme. */
  function BearerToken(header: Option<string>): (r: Option<string>)
    ensures r.Some? <==> header.Some? && StartsWith(header.value, BEARER_PREFIX)
    ensures r.Some? ==> header.value == BEARER_PREFIX + r.value
  {
    if header.Some? && StartsWith(header.value, BEARER_PREFIX) then
      assert header.value == header.value[..7] + header.value[7..];
      Some(header.value[7..])
    else None
  }

  /** Every token survives the trip through the header unchanged. */
  lemma BearerTokenOfHeader(token: string)
    ensures BearerToken(Some(BEARER_PREFIX + token)) == Some(token)
  {
    var h := BEARER_PREFIX + token;
    assert h[..|BEARER_PREFIX|] == BEARER_PREFIX;
    assert BEARER_PREFIX + BearerToken(Some(h)).value == BEARER_PREFIX + token;
    assert BearerToken(Some(h)).value == h[|BEARER_PREFIX|..];
  }

  /** The scheme is matched case-sensitively: a lower-case "bearer" is not read. */
  lemma LowerCaseSchemeNotRead(token: string)
    ensures BearerToken(Some("bearer " + token)).None?
  {
    var h := "bearer " + token;
    assert h[0] == 'b' != BEARER_PREFIX[0];
  }

  // ---------------------------------------------------------------------------
  // Security contexts
  // ---------------------------------------------------------------------------

  /** Where a filter-made context gets its isSecure answer: from whatever
      context the request holds when asked, or from the context it replaced. */
  datatype SecureSource = AskCurrent | AskOriginal(original: SecurityContext)

  /** The container's own context, or one the filter installed. */
  datatype SecurityContext =
    | ContainerContext(secure: bool)
    | BearerContext(username: Option<string>, role: Option<string>, secureFrom: SecureSource)

  /** The principal name of a filter-made context is the token's subject. */
  function PrincipalName(c: SecurityContext): (r: Option<string>)
    requires c.BearerContext?
    ensures r == c.username
  {
    c.username
  }

  function AuthenticationScheme(c: SecurityContext): string
    requires c.BearerContext?
  {
    BEARER_SCHEME
  }

  /** isUserInRole(r): the role claim equals r ignoring case; None stands for
      the NullPointerException of a token without a role claim. */
  function IsUserInRole(c: SecurityContext, r: string): (b: Option<bool>)
    requires c.BearerContext?
    ensures b.None? <==> c.role.None?
    ensures b == Some(true) <==> c.role.Some? && EqualsIgnoreCase(c.role.value, r)
  {
    if c.role.None? then None else Some(EqualsIgnoreCase(c.role.value, r))
  }

  /** The role check accepts the role itself and is symmetric in the two names. */
  lemma RoleCheckSymmetric(u: Option<string>, role: string, r: string, s: SecureSource)
    ensures IsUserInRole(BearerContext(u, Some(role), s), role) == Some(true)
    ensures IsUserInRole(BearerContext(u, Some(role), s), r) == IsUserInRole(BearerContext(u, Some(r), s), role)
  {
    assert EqualsIgnoreCase(role, r) <==> EqualsIgnoreCase(r, role) by {
      if EqualsIgnoreCase(role, r) {
        forall i | 0 <= i < |r| ensures CharEqualsIgnoreCase(r[i], role[i]) {
          assert CharEqualsIgnoreCase(role[i], r[i]);
        }
      }
      if EqualsIgnoreCase(r, role) {
        forall i | 0 <= i < |role| ensures CharEqualsIgnoreCase(role[i], r[i]) {
          assert CharEqualsIgnoreCase(r[i], role[i]);
        }
      }
    }
  }

  /** A token issued with role "admin" passes @RolesAllowed("ADMIN"). */
  lemma LowerCaseAdminIsAdmin(u: Option<string>, s: SecureSource)
    ensures IsUserInRole(BearerContext(u, Some("admin"), s), "ADMIN") == Some(true)
  {
    var a, b := "admin", "ADMIN";
    forall i | 0 <= i < 5 ensures CharEqualsIgnoreCase(a[i], b[i]) {
      assert UpperAscii(a[i]) == b[i];
    }
  }

  /** The answer of c.isSecure() while the request holds current. Asking the
      current context is a call that may not return: fuel bounds the depth of
      nested calls, and None means no answer within it. */
  function IsSecure(current: SecurityContext, c: SecurityContext, fuel: nat): Option<bool>
    decreases fuel, c
  {
    match c
    case ContainerContext(s) => Some(s)
    case BearerContext(_, _, AskOriginal(o)) => IsSecure(current, o, fuel)
    case BearerContext(_, _, AskCurrent) => if fuel == 0 then None else IsSecure(current, current, fuel - 1)
  }

  /** No context in the chain asks the current one. */
  predicate Grounded(c: SecurityContext)
  {
    match c
    case ContainerContext(_) => true
    case BearerContext(_, _, AskCurrent) => false
    case BearerContext(_, _, AskOriginal(o)) => Grounded(o)
  }

  /** The answer of a grounded context: that of the container context at the end of its chain. */
  function GroundSecure(c: SecurityContext): bool
    requires Grounded(c)
  {
    match c
    case ContainerContext(s) => s
    case BearerContext(_, _, AskOriginal(o)) => GroundSecure(o)
  }

  /** The context the filter installs, as written: isSecure asks
      requestContext.getSecurityContext(), which by then is this context. */
  function AuthenticatedAsWritten(username: Option<string>, role: Option<string>): (c: SecurityContext)
    ensures c.BearerContext? && PrincipalName(c) == username && c.role == role
    ensures !Grounded(c)
  {
    BearerContext(username, role, AskCurrent)
  }

  /** The context the filter installs, corrected: isSecure asks the context it replaced. */
  function Authenticated(username: Option<string>, role: Option<string>, original: SecurityContext): (c: SecurityContext)
    ensures c.BearerContext? && PrincipalName(c) == username && c.role == role
    ensures Grounded(c) <==> Grounded(original)
  {
    BearerContext(username, role, AskOriginal(original))
  }

  /** As written, once the filter has installed its context, isSecure() never
      answers, however deep the stack: every call asks the same context again. */
  lemma {:induction false} AsWrittenIsSecureNeverAnswers(username: Option<string>, role: Option<string>, fuel: nat)
    ensures IsSecure(AuthenticatedAsWritten(username, role), AuthenticatedAsWritten(username, role), fuel).None?
  {
    if fuel > 0 {
      AsWrittenIsSecureNeverAnswers(username, role, fuel - 1);
    }
  }

  /** A grounded context answers isSecure() at once, with the container's answer. */
  lemma {:induction false} GroundedAnswers(current: SecurityContext, c: SecurityContext, fuel: nat)
    requires Grounded(c)
    ensures IsSecure(current, c, fuel) == Some(GroundSecure(c))
  {
    match c
    case ContainerContext(_) =>
    case BearerContext(_, _, AskOriginal(o)) => GroundedAnswers(current, o, fuel);
  }

  /** Corrected, the filter's context reports what the container's context reported. */
  lemma CorrectedIsSecureAnswers(username: Option<string>, role: Option<string>, secure: bool, fuel: nat)
    ensures var c := Authenticated(username, role, ContainerContext(secure));
      IsSecure(c, c, fuel) == Some(secure)
  {
    GroundedAnswers(Authenticated(username, role, ContainerContext(secure)),
                    Authenticated(username, role, ContainerContext(secure)), fuel);
  }

  // ---------------------------------------------------------------------------
  // The filter
  // ---------------------------------------------------------------------------

  /** What the filter does with a request. */
  datatype Decision =
    | PassThrough
    | Abort(response: Response<string>)
    | Authenticate(username: Option<string>, role: Option<string>)

  /** The filter's decision for this Authorization header at this time. */
  function Decide(header: Option<string>, sec: SecurityService, now: int): (d: Decision)
    ensures d.PassThrough? <==> BearerToken(header).None?
    ensures d.Abort? ==> d.response.status == UNAUTHORIZED
    ensures d == Abort(Response(UNAUTHORIZED, Text(INVALID_TOKEN))) <==>
              BearerToken(header).Some? && sec.parse(BearerToken(header).value, now).None?
    ensures d.Authenticate? <==> BearerToken(header).Some? && sec.parse(BearerToken(header).value, now).Some?
                                 && !sec.parse(BearerToken(header).value, now).value.role.RoleNotText?
    ensures d.Authenticate? ==> d.username == sec.parse(BearerToken(header).value, now).value.subject
    ensures d.Authenticate? ==> (d.role.Some? <==> sec.parse(BearerToken(header).value, now).value.role.RoleText?)
    ensures d.Authenticate? && d.role.Some? ==> sec.parse(BearerToken(header).value, now).value.role == RoleText(d.role.value)
  {
    match BearerToken(header)
    case None => PassThrough
    case Some(token) =>
      match sec.parse(token, now)
      case None => Abort(Response(UNAUTHORIZED, Text(INVALID_TOKEN)))
      case Some(claims) =>
        match claims.role
        case RoleNotText => Abort(Response(UNAUTHORIZED, Empty))
        case NoRole => Authenticate(claims.subject, None)
        case RoleText(r) => Authenticate(claims.subject, Some(r))
  }

  /** The request as the filter sees it: the Authorization header, the
      security context, and the response it was aborted with, if any. */
  class RequestContext {
    const authorization: Option<string>
    var securityContext: SecurityContext
    var aborted: Option<Response<string>>

    constructor (authorization: Option<string>, securityContext: SecurityContext)
      ensures this.authorization == authorization && this.securityContext == securityContext && aborted.None?
    {
      this.authorization := authorization;
      this.securityContext := securityContext;
      aborted := None;
    }
  }

  class JwtAuthenticationFilter {
    /** The injected SecurityService. */
    const securityService: SecurityService

    constructor (securityService: SecurityService)
      ensures this.securityService == securityService
    {
      this.securityService := securityService;
    }

    /** filter(requestContext), at time now. A valid token installs the
        anonymous context of the source, whose isSecure asks the request's
        current context, which is that context itself: it is no longer
        grounded, and AsWrittenIsSecureNeverAnswers shows that its isSecure
        never answers. */
    method Filter(rc: RequestContext, now: int)
      modifies rc`securityContext, rc`aborted
      ensures var d := Decide(rc.authorization, securityService, now);
        && (d.PassThrough? ==> rc.securityContext == old(rc.securityContext) && rc.aborted == old(rc.aborted))
        && (d.Abort? ==> rc.aborted == Some(d.response) && rc.securityContext == old(rc.securityContext))
        && (d.Authenticate? ==> rc.securityContext == AuthenticatedAsWritten(d.username, d.role)
                                && rc.aborted == old(rc.aborted))
      ensures Grounded(rc.securityContext) <==> Grounded(old(rc.securityContext)) && !Decide(rc.authorization, securityService, now).Authenticate?
    {
      var authHeader := rc.authorization;
      if authHeader.None? || !StartsWith(authHeader.value, BEARER_PREFIX) {
        return;
      }
      var token := authHeader.value[7..];
      var claims := securityService.parse(token, now);
      if claims.Some? {
        if claims.value.role.RoleNotText? {
          // claims.get("role", String.class) throws: the catch aborts without an entity
          rc.aborted := Some(Response(UNAUTHORIZED, Empty));
          return;
        }
        var role := if claims.value.role.RoleText? then Some(claims.value.role.text) else None;
        rc.securityContext := AuthenticatedAsWritten(claims.value.subject, role);
      } else {
        rc.aborted := Some(Response(UNAUTHORIZED, Text(INVALID_TOKEN)));
      }
    }
  }
}
