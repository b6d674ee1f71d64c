/** The application paths the pages navigate to and the guard redirects to (src/App.js). */
module Paths {
  /** The home page, where a login and a published post lead. */
  const HomePath := "/"
  /** The login/signup page, the one route outside the guard. */
  const AccountPath := "/account"
}
