/**
 * `AuthManager.signUp`: asks the identity provider to create the account
 * and, on its success, writes the user record. Whether the provider
 * accepts a request is a parameter.
 */
module AuthManager {
  import opened Database

  /**
   * `AuthManager.signUp(with:email:password:)`: asks the provider to create
   * the account and, only when it does, writes the user record through
   * `insertUser` under the username exactly as typed. The result is what
   * the completion handler receives.
   */
  method SignUp(db: DatabaseManager, username: string, email: string, password: string, providerAccepts: bool, storeAccepts: bool)
    returns (success: bool)
    modifies db
    ensures success == (providerAccepts && storeAccepts)
    ensures db.users == if success then UsersAfterInsertUser(old(db.users), email, username) else old(db.users)
    ensures db.session == old(db.session)
  {
    if !providerAccepts {
      return false;
    }
    success := db.InsertUser(email, username, storeAccepts);
  }
}
