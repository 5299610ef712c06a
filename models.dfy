/** The value objects the payment handler reads and builds. Only the fields
    the handler uses are kept. */
module Models {
  import opened Wrappers

  /** A transaction participant; its hex account number is kept opaque. */
  datatype Account = Account(accountNumberHex: string)

  /** A requested transfer of `amount` to `recipient`; `fee`, when present,
      is a classification label (a node type), not a numeric fee. */
  datatype Transaction = Transaction(recipient: string, amount: int, fee: Option<string>)

  /** Where the bank says its primary validator can be reached. */
  datatype ValidatorLocator = ValidatorLocator(ipAddress: string, port: Option<nat>, protocol: string)

  /** The bank's configuration snapshot. */
  datatype BankConfig = BankConfig(
    accountNumber: string,
    defaultTransactionFee: int,
    nodeType: string,
    primaryValidator: Option<ValidatorLocator>)

  /** The primary validator's configuration snapshot. */
  datatype ValidatorConfig = ValidatorConfig(
    accountNumber: string,
    defaultTransactionFee: int,
    nodeType: string)

  /** The opaque reason a remote call failed. */
  datatype Cause = Cause(description: string)

  /** An error raised by the handler: a remote failure wrapped with a fixed
      context message, or one that surfaces unwrapped. */
  datatype Error = LoadError(message: string, cause: Cause) | RemoteError(cause: Cause)

  /** A client proxy for a primary validator, built from its base URL. */
  datatype ValidatorProxy = ValidatorProxy(url: string)

  /** An assembled, not yet submitted, set of transactions. */
  datatype Bundle = Bundle(balanceLock: Option<string>, transactions: seq<Transaction>, sender: Account)

  /** The arguments of one `addBlocks` call on the bank. */
  datatype AddBlocksRequest = AddBlocksRequest(balanceLock: string, transactions: seq<Transaction>, sender: Account)

  /** A transfer recipient: a raw account number or an account. */
  datatype Recipient = RawAccountNumber(accountNumber: string) | AccountRecipient(account: Account)

  /** The arguments of `sendCoins`. */
  datatype TransferDetails = TransferDetails(sender: Account, recipient: Recipient, amount: int)
}
