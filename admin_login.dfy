/** The admin login (Backend/routes/admin.js): fixed credentials from the environment, a signed token on success. */
module AdminLogin {
  import opened Wrappers

  const DefaultUsername: string := "hariom"
  const DefaultPassword: string := "@hariom"

  /** The configured credentials: each environment value, or its default when unset or empty. */
  function Credentials(envUser: Option<string>, envPass: Option<string>): (c: (string, string))
    ensures c.0 == (if TruthyString(envUser) then envUser.value else DefaultUsername)
    ensures c.1 == (if TruthyString(envPass) then envPass.value else DefaultPassword)
  {
    (OrString(envUser, DefaultUsername), OrString(envPass, DefaultPassword))
  }

  /**
   * POST `/login`: 400 when either field is missing or empty, the token signed over the
   * username when both match the configured credentials, 401 otherwise. `sign` stands for `jwt.sign`.
   */
  function Login(username: Option<string>, password: Option<string>, envUser: Option<string>, envPass: Option<string>,
                 sign: string -> string): (r: Reply<string>)
    ensures !TruthyString(username) || !TruthyString(password) <==> r == Err(400, "Username and password are required")
    ensures r.Ok? <==> TruthyString(username) && TruthyString(password)
                       && (username.value, password.value) == Credentials(envUser, envPass)
    ensures r.Ok? ==> r.value == sign(username.value)
    ensures r.Err? ==> r.code == 400 || r == Err(401, "Invalid credentials")
  {
    if !TruthyString(username) || !TruthyString(password) then Err(400, "Username and password are required")
    else
      var c := Credentials(envUser, envPass);
      if username.value == c.0 && password.value == c.1 then Ok(sign(username.value))
      else Err(401, "Invalid credentials")
  }

  /** With the environment unset, only the built-in pair logs in. */
  lemma DefaultsApply(username: string, password: string, sign: string -> string)
    ensures Login(Some(username), Some(password), None, None, sign).Ok?
            <==> username == DefaultUsername && password == DefaultPassword
  {
  }
}
