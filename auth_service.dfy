/**
 * `AuthService`: admin login and the in-memory refresh-token store. The
 * signed access token, the random refresh token and the clock are inputs;
 * instants are whole seconds.
 */
module Auth {
  import opened Outcomes

  datatype AuthRequest = AuthRequest(username: string, password: string)

  datatype AuthResponse = AuthResponse(accessToken: string, refreshToken: string, tokenType: string, expiresIn: int)

  /** What the store remembers about one refresh token. */
  datatype RefreshTokenInfo = RefreshTokenInfo(username: string, roles: set<string>, expiresAt: int)

  /** The configuration properties, each with its default. */
  datatype AuthConfig = AuthConfig(
    adminUsername: string,
    adminPassword: string,
    accessTokenDuration: int,
    refreshTokenDuration: int)

  const DefaultConfig := AuthConfig("admin", "admin123", 3600, 86400)

  /** The roles every successful login receives. */
  const LoginRoles: set<string> := {"user", "admin"}

  type Tokens = map<string, RefreshTokenInfo>

  /** `refreshTokens` with `token` stored for the given user, valid for one refresh-token lifetime. */
  function Issue(config: AuthConfig, tokens: Tokens, token: string, username: string, roles: set<string>, now: int): (t: Tokens)
    ensures token in t && t[token] == RefreshTokenInfo(username, roles, now + config.refreshTokenDuration)
    ensures forall u :: u != token ==> (u in t <==> u in tokens) && (u in tokens ==> t[u] == tokens[u])
  {
    tokens[token := RefreshTokenInfo(username, roles, now + config.refreshTokenDuration)]
  }

  /** `authenticate`: only the configured admin credentials log in. */
  function Login(config: AuthConfig, tokens: Tokens, request: AuthRequest,
                        accessToken: string, freshToken: string, now: int): (r: (Result<AuthResponse>, Tokens))
    ensures r.0.Ok? <==> request.username == config.adminUsername && request.password == config.adminPassword
    ensures r.0.Err? ==> r.0.failure == Unauthorized("Invalid username or password") && r.1 == tokens
    ensures r.0.Ok? ==>
      r.0.value == AuthResponse(accessToken, freshToken, "Bearer", config.accessTokenDuration)
      && r.1 == Issue(config, tokens, freshToken, request.username, LoginRoles, now)
  {
    if request.username != config.adminUsername || request.password != config.adminPassword then
      (Err(Unauthorized("Invalid username or password")), tokens)
    else
      (Ok(AuthResponse(accessToken, freshToken, "Bearer", config.accessTokenDuration)),
       Issue(config, tokens, freshToken, request.username, LoginRoles, now))
  }

  /**
   * `refreshToken`: an unknown token is refused; an expired one is
   * refused and forgotten; a live one is replaced by `freshToken` for the
   * same user and roles, with a new lifetime.
   */
  function Refresh(config: AuthConfig, tokens: Tokens, token: string,
                   accessToken: string, freshToken: string, now: int): (r: (Result<AuthResponse>, Tokens))
    ensures r.0.Err? ==> r.0.failure.Unauthorized?
    ensures token !in tokens ==> r == (Err(Unauthorized("Invalid refresh token")), tokens)
    ensures token in tokens && tokens[token].expiresAt < now ==>
      r == (Err(Unauthorized("Refresh token has expired")), tokens - {token})
    ensures r.0.Ok? <==> token in tokens && tokens[token].expiresAt >= now
    ensures r.0.Ok? ==>
      r.0.value == AuthResponse(accessToken, freshToken, "Bearer", config.accessTokenDuration)
      && freshToken in r.1
      && r.1[freshToken] == RefreshTokenInfo(tokens[token].username, tokens[token].roles, now + config.refreshTokenDuration)
      && (freshToken != token ==> token !in r.1)
      && forall u :: u != token && u != freshToken ==> (u in r.1 <==> u in tokens) && (u in r.1 ==> r.1[u] == tokens[u])
  {
    if token !in tokens then (Err(Unauthorized("Invalid refresh token")), tokens)
    else
      var info := tokens[token];
      if info.expiresAt < now then (Err(Unauthorized("Refresh token has expired")), tokens - {token})
      else
        // the new token is stored when it is generated, then the old one is
        // removed and the new one stored again
        var issued := Issue(config, tokens, freshToken, info.username, info.roles, now);
        (Ok(AuthResponse(accessToken, freshToken, "Bearer", config.accessTokenDuration)),
         Issue(config, issued - {token}, freshToken, info.username, info.roles, now))
  }

  /** `revokeToken`: forget `token`; every other token stays as it was. */
  function Revoke(tokens: Tokens, token: string): (t: Tokens)
    ensures token !in t
    ensures forall u :: u != token ==> (u in t <==> u in tokens) && (u in t ==> t[u] == tokens[u])
  {
    tokens - {token}
  }

  /** A token issued at login refreshes until its lifetime ends, for the admin with both roles. */
  lemma LoginTokenRefreshes(config: AuthConfig, tokens: Tokens, request: AuthRequest,
                            access1: string, token: string, loginTime: int,
                            access2: string, newToken: string, refreshTime: int)
    requires request.username == config.adminUsername && request.password == config.adminPassword
    ensures var issued := Login(config, tokens, request, access1, token, loginTime).1;
      var r := Refresh(config, issued, token, access2, newToken, refreshTime);
      (r.0.Ok? <==> refreshTime <= loginTime + config.refreshTokenDuration)
      && (r.0.Ok? ==> r.1[newToken].username == config.adminUsername && r.1[newToken].roles == LoginRoles)
  {
  }

  /** A revoked token no longer refreshes. */
  lemma RevokedTokenRejected(config: AuthConfig, tokens: Tokens, token: string,
                             accessToken: string, newToken: string, now: int)
    ensures Refresh(config, Revoke(tokens, token), token, accessToken, newToken, now).0
            == Err(Unauthorized("Invalid refresh token"))
  {
  }

  /** A refresh token is single use: once rotated, the old token is refused. */
  lemma RotatedTokenRejected(config: AuthConfig, tokens: Tokens, token: string,
                             access1: string, fresh1: string, now1: int,
                             access2: string, fresh2: string, now2: int)
    requires fresh1 != token
    requires Refresh(config, tokens, token, access1, fresh1, now1).0.Ok?
    ensures var rotated := Refresh(config, tokens, token, access1, fresh1, now1).1;
      Refresh(config, rotated, token, access2, fresh2, now2).0 == Err(Unauthorized("Invalid refresh token"))
  {
  }

  /** The service object: its configuration and the token map it updates. */
  class AuthService {
    const config: AuthConfig
    var refreshTokens: Tokens

    constructor (config: AuthConfig)
      ensures this.config == config && refreshTokens == map[]
    {
      this.config := config;
      refreshTokens := map[];
    }

    method Authenticate(request: AuthRequest, accessToken: string, freshToken: string, now: int)
      returns (r: Result<AuthResponse>)
      modifies this
      ensures (r, refreshTokens) == Login(config, old(refreshTokens), request, accessToken, freshToken, now)
    {
      if request.username != config.adminUsername || request.password != config.adminPassword {
        return Err(Unauthorized("Invalid username or password"));
      }
      refreshTokens := refreshTokens[freshToken := RefreshTokenInfo(request.username, LoginRoles, now + config.refreshTokenDuration)];
      r := Ok(AuthResponse(accessToken, freshToken, "Bearer", config.accessTokenDuration));
    }

    method RefreshToken(token: string, accessToken: string, freshToken: string, now: int)
      returns (r: Result<AuthResponse>)
      modifies this
      ensures (r, refreshTokens) == Refresh(config, old(refreshTokens), token, accessToken, freshToken, now)
    {
      if token !in refreshTokens {
        return Err(Unauthorized("Invalid refresh token"));
      }
      var info := refreshTokens[token];
      if info.expiresAt < now {
        refreshTokens := refreshTokens - {token};
        return Err(Unauthorized("Refresh token has expired"));
      }
      var renewed := RefreshTokenInfo(info.username, info.roles, now + config.refreshTokenDuration);
      refreshTokens := refreshTokens[freshToken := renewed];
      refreshTokens := refreshTokens - {token};
      refreshTokens := refreshTokens[freshToken := renewed];
      r := Ok(AuthResponse(accessToken, freshToken, "Bearer", config.accessTokenDuration));
    }

    method RevokeToken(token: string)
      modifies this
      ensures refreshTokens == Revoke(old(refreshTokens), token)
    {
      refreshTokens := refreshTokens - {token};
    }
  }
}
