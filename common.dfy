/** Shared vocabulary: identifiers, Option/Result, and the errors the services throw. */
module Common {

  /** Mongo ObjectIds are modelled as natural numbers. */
  type UserId = nat
  type TxId = nat

  datatype Option<T> = None | Some(value: T)

  /** A service call either returns a value or throws one of the errors below. */
  datatype Result<T> = Ok(value: T) | Err(error: Error)

  /** The errors thrown by the services; the comment gives the message the code attaches. */
  datatype Error =
    | InsufficientFundsOrWalletNotFound     // "Insufficient funds or Wallet not found"
    | InsufficientFundsToUpdate             // "Insufficient funds to update this transaction amount"
    | TransactionNotFound                   // "Transaction not found"
    | InvalidUpdate(fields: set<string>)    // "Invalid update: <fields>"
    | ValidationFailed(paths: set<string>)  // a mongoose cast or validation error on these paths
    | DuplicateKey(index: string)           // a unique-index violation (E11000)
    | WalletNotFound                        // "Wallet not found"
    | EmailAlreadyExists                    // "Email already exists"
    | IllegalArguments                      // bcrypt.hash called without a password
    | InvalidEmailOrPassword                // "Invalid email or password"
    | UserNotFound                          // "User not found"
}
