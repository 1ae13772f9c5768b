/** The validators of the authentication requests: login, a token pair and a refresh token. */
module AuthValidators {
  import opened Wrappers
  import opened DotNetText
  import opened Fluent
  import opened Dtos

  const UsernameRequired := "Username is required."
  const PasswordRequired := "Password is required."
  const AccessTokenRequired := "Access token is required."
  const RefreshTokenRequired := "Refresh token is required."

  // ---- LoginDtoValidator ----

  function LoginErrors(x: LoginDto): (errors: seq<string>)
    ensures errors == [] <==> NotEmptyText(x.username) && NotEmptyText(x.password)
    ensures UsernameRequired in errors <==> !NotEmptyText(x.username)
    ensures PasswordRequired in errors <==> !NotEmptyText(x.password)
  {
    Rule(NotEmptyText(x.username), UsernameRequired) + Rule(NotEmptyText(x.password), PasswordRequired)
  }

  /** No length or format limit: any two texts with a non-blank character log in, however long. */
  lemma LoginHasNoLengthLimit(username: string, password: string)
    requires exists i :: 0 <= i < |username| && !IsWhiteSpace(username[i])
    requires exists i :: 0 <= i < |password| && !IsWhiteSpace(password[i])
    ensures LoginErrors(LoginDto(Some(username), Some(password))) == []
  {
  }

  // ---- JwtTokenDtoValidator ----

  function JwtTokenErrors(x: JwtTokenDto): (errors: seq<string>)
    ensures errors == [] <==> NotEmptyText(x.accessToken) && NotEmptyText(x.refreshToken)
    ensures AccessTokenRequired in errors <==> !NotEmptyText(x.accessToken)
    ensures RefreshTokenRequired in errors <==> !NotEmptyText(x.refreshToken)
  {
    Rule(NotEmptyText(x.accessToken), AccessTokenRequired) + Rule(NotEmptyText(x.refreshToken), RefreshTokenRequired)
  }

  // ---- RefreshTokenDtoValidator ----

  function RefreshTokenErrors(x: RefreshTokenDto): (errors: seq<string>)
    ensures errors == [] <==> x.token.Some? && exists i :: 0 <= i < |x.token.value| && !IsWhiteSpace(x.token.value[i])
    ensures errors != [] ==> errors == [RefreshTokenRequired]
  {
    Rule(NotEmptyText(x.token), RefreshTokenRequired)
  }

  /** Null, "" and white space only tokens are rejected; "abc" is accepted. */
  lemma RefreshTokenExamples()
    ensures RefreshTokenErrors(RefreshTokenDto(None)) == [RefreshTokenRequired]
    ensures RefreshTokenErrors(RefreshTokenDto(Some(""))) == [RefreshTokenRequired]
    ensures RefreshTokenErrors(RefreshTokenDto(Some(" \t"))) == [RefreshTokenRequired]
    ensures RefreshTokenErrors(RefreshTokenDto(Some("abc"))) == []
  {
    assert !IsWhiteSpace("abc"[0]);
  }
}
