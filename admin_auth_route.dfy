/**
 * The admin login API (app/api/admin/auth/route.ts): the submitted e-mail and password are
 * compared with the configured ones. The two environment variables are a parameter.
 */
module AdminAuthApi {
  import opened Wrappers
  import opened Json

  /** ADMIN_EMAIL and ADMIN_PASSWORD; each may be unset. */
  datatype AdminConfig = AdminConfig(adminEmail: Option<string>, adminPassword: Option<string>)

  /** The fields read from the JSON body; each may be absent. */
  datatype Credentials = Credentials(email: Option<string>, password: Option<string>)

  datatype AdminUser = AdminUser(email: string, name: string, role: string)

  datatype AuthResponse =
    | Failure(status: int, error: string)
    | Authenticated(status: int, user: AdminUser)

  const ConfigError := "Server configuration error"
  const InvalidCredentials := "Invalid credentials"
  const AuthFailed := "Authentication failed"

  /** Both variables are set to non-empty values. */
  predicate Configured(cfg: AdminConfig) {
    Truthy(cfg.adminEmail) && Truthy(cfg.adminPassword)
  }

  /** Both submitted values equal the configured ones exactly (an absent field equals nothing). */
  predicate Matches(cfg: AdminConfig, c: Credentials)
    requires Configured(cfg)
  {
    c.email == cfg.adminEmail && c.password == cfg.adminPassword
  }

  /**
   * POST. An unreadable body is 500 'Authentication failed'; a missing configuration is 500
   * for any input; a match is 200 with the admin user; anything else is 401.
   */
  function Post(cfg: AdminConfig, body: Option<Credentials>): (r: AuthResponse)
    ensures body.None? ==> r == Failure(500, AuthFailed)
    ensures body.Some? && !Configured(cfg) ==> r == Failure(500, ConfigError)
    ensures r.Authenticated? <==> body.Some? && Configured(cfg) && Matches(cfg, body.value)
    ensures r.Authenticated? ==> r == Authenticated(200, AdminUser(cfg.adminEmail.value, "Admin User", "admin"))
    ensures body.Some? && Configured(cfg) && !Matches(cfg, body.value) ==> r == Failure(401, InvalidCredentials)
  {
    if body.None? then Failure(500, AuthFailed)
    else if !Configured(cfg) then Failure(500, ConfigError)
    else if Matches(cfg, body.value) then Authenticated(200, AdminUser(body.value.email.value, "Admin User", "admin"))
    else Failure(401, InvalidCredentials)
  }

  /**
   * Nothing in a response depends on the submitted password beyond whether it matched: two
   * requests with the same e-mail that both succeed or both fail get the same response.
   */
  lemma ResponseHidesPassword(cfg: AdminConfig, email: Option<string>, p1: string, p2: string)
    requires (Some(p1) == cfg.adminPassword) == (Some(p2) == cfg.adminPassword)
    ensures Post(cfg, Some(Credentials(email, Some(p1)))) == Post(cfg, Some(Credentials(email, Some(p2))))
  {
  }

  /** A wrong e-mail and a wrong password are answered alike, so a response does not tell which was wrong. */
  lemma MismatchesLookAlike(cfg: AdminConfig, c1: Credentials, c2: Credentials)
    requires Configured(cfg) && !Matches(cfg, c1) && !Matches(cfg, c2)
    ensures Post(cfg, Some(c1)) == Post(cfg, Some(c2)) == Failure(401, InvalidCredentials)
  {
  }
}
