/** The learner and staff accounts the views look up. */
module Accounts {

  /** An account, identified by its user name; support staff may also look it up by e-mail. */
  datatype User = User(username: string, email: string)
}
