/** The UMS login payload and its builder. */
module LoginRequests {
  import opened Wrappers

  /** `LoginRequest`: `isRemember` is 0 or 1. */
  datatype LoginRequest = LoginRequest(input: string, password: string, isRemember: nat)

  /**
   * `createLoginRequest(username, password, rememberMe = false)`: `None` stands for an
   * omitted `rememberMe`.
   */
  function CreateLoginRequest(username: string, password: string, rememberMe: Option<bool>): (r: LoginRequest)
    ensures r.input == username && r.password == password
    ensures r.isRemember == 1 <==> rememberMe == Some(true)
    ensures r.isRemember == 0 <==> rememberMe != Some(true)
  {
    var remember := rememberMe.GetOr(false);
    LoginRequest(username, password, if remember then 1 else 0)
  }

  /** Omitting `rememberMe` is the same as passing `false`. */
  lemma RememberMeDefaultsToFalse(username: string, password: string)
    ensures CreateLoginRequest(username, password, None) == CreateLoginRequest(username, password, Some(false))
    ensures CreateLoginRequest(username, password, None).isRemember == 0
  {
  }
}
