/** The payment handler: network discovery (bank config, then primary
    validator), fee-enriched transaction assembly, and broadcast.

    Remote calls are parameters: the outcome of the bank's config fetch, and
    functions giving the outcome of a validator config fetch (by validator
    URL), of a balance-lock fetch (by validator URL and account number) and of
    an `addBlocks` submission (by bank URL and request). */
module Payment {
  import opened Wrappers
  import opened Decimal
  import opened Models

  const BankConfigMessage := "Failed to load the bank's config."
  const ValidatorConfigMessage := "Failed to load the primary validator's config."
  const BalanceLockMessage := "Failed to load the balance lock from the primary validator to send the transaction."

  // ---------------------------------------------------------------------
  // Validator URL composition
  // ---------------------------------------------------------------------

  /** `protocol://ip`, the part of the validator URL that is always present. */
  function BaseUrl(loc: ValidatorLocator): string {
    loc.protocol + "://" + loc.ipAddress
  }

  /** A well-formed port segment: empty, or a colon followed by digits. */
  predicate IsPortSegment(seg: string) {
    seg == [] || (seg[0] == ':' && |seg| > 1 && AllDigits(seg[1..]))
  }

  /** Reads the port back from a port segment. */
  function ParsePortSegment(seg: string): Option<nat>
    requires IsPortSegment(seg)
  {
    if seg == [] then None else Some(DecimalValue(seg[1..]))
  }

  /** The base URL of the primary validator: `protocol://ip`, followed by
      `:port` only when the port is not null. */
  function ValidatorUrl(loc: ValidatorLocator): (url: string)
    ensures loc.port.None? ==> url == loc.protocol + "://" + loc.ipAddress
    ensures loc.port.Some? ==> url == loc.protocol + "://" + loc.ipAddress + ":" + ToDecimal(loc.port.value)
    ensures |url| >= |BaseUrl(loc)| && url[..|BaseUrl(loc)|] == BaseUrl(loc)
    ensures IsPortSegment(url[|BaseUrl(loc)|..])
    ensures ParsePortSegment(url[|BaseUrl(loc)|..]) == loc.port
  {
    var base := BaseUrl(loc);
    match loc.port
    case None => assert base[|base|..] == []; base
    case Some(p) =>
      var seg := ":" + ToDecimal(p);
      assert (base + seg)[|base|..] == seg && seg[1..] == ToDecimal(p);
      DecimalRoundTrip(p);
      base + seg
  }

  /** `t` occurs in `s` starting at index `i`. */
  predicate OccursAt(s: string, t: string, i: int) {
    0 <= i && i + |t| <= |s| && s[i..i + |t|] == t
  }

  ghost predicate Contains(s: string, t: string) {
    exists i :: OccursAt(s, t, i)
  }

  /** Appending a well-formed port segment creates no occurrence of ":null". */
  lemma NoNullAcrossPortSegment(base: string, seg: string)
    requires !Contains(base, ":null") && IsPortSegment(seg)
    ensures !Contains(base + seg, ":null")
  {
    var url, b := base + seg, |base|;
    forall i | 0 <= i && i + 5 <= |url|
      ensures !OccursAt(url, ":null", i)
    {
      if i + 5 <= b {
        assert url[i..i + 5] == base[i..i + 5];
        assert !OccursAt(base, ":null", i);
      } else if i < b {
        assert url[i..i + 5][b - i] == seg[0] == ':';
      } else if i == b {
        assert url[i..i + 5][1] == seg[1..][0];
      } else {
        assert url[i..i + 5][0] == seg[1..][i - b - 1];
      }
    }
  }

  /** The port segment never renders as `:null`: any occurrence of ":null" in
      the URL already lies inside `protocol://ip`. */
  lemma NoNullPortSegment(loc: ValidatorLocator)
    requires !Contains(BaseUrl(loc), ":null")
    ensures !Contains(ValidatorUrl(loc), ":null")
  {
    var base, url := BaseUrl(loc), ValidatorUrl(loc);
    assert url == base + url[|base|..];
    NoNullAcrossPortSegment(base, url[|base|..]);
  }

  // ---------------------------------------------------------------------
  // Fee-enriched transaction assembly
  // ---------------------------------------------------------------------

  /** The fee transaction that credits a node: its default fee, to its own
      account, labelled with its node type. */
  function FeeTransaction(defaultTransactionFee: int, nodeType: string, accountNumber: string): Transaction {
    Transaction(accountNumber, defaultTransactionFee, Some(nodeType))
  }

  /** `t` is `txs` followed by exactly the bank's fee transaction and then the
      primary validator's, each derived field by field from its config. */
  predicate FeeEnriched(t: seq<Transaction>, txs: seq<Transaction>, bank: BankConfig, validator: ValidatorConfig) {
    && |t| == |txs| + 2
    && t[..|txs|] == txs
    && t[|txs|].recipient == bank.accountNumber
    && t[|txs|].amount == bank.defaultTransactionFee
    && t[|txs|].fee == Some(bank.nodeType)
    && t[|txs| + 1].recipient == validator.accountNumber
    && t[|txs| + 1].amount == validator.defaultTransactionFee
    && t[|txs| + 1].fee == Some(validator.nodeType)
  }

  /** The bundle `createTransaction` returns once the balance lock is known:
      the caller's transactions with the two fee transactions appended. */
  function AssembleBundle(balanceLock: Option<string>, sender: Account, txs: seq<Transaction>,
                          bank: BankConfig, validator: ValidatorConfig): (b: Bundle)
    ensures b.balanceLock == balanceLock && b.sender == sender
    ensures FeeEnriched(b.transactions, txs, bank, validator)
  {
    var fees := [FeeTransaction(bank.defaultTransactionFee, bank.nodeType, bank.accountNumber),
                 FeeTransaction(validator.defaultTransactionFee, validator.nodeType, validator.accountNumber)];
    assert (txs + fees)[..|txs|] == txs;
    Bundle(balanceLock, txs + fees, sender)
  }

  /** The user transactions and the two fee transactions of a fee-enriched
      sequence determine it completely. */
  lemma FeeEnrichedUnique(t: seq<Transaction>, u: seq<Transaction>, txs: seq<Transaction>,
                          bank: BankConfig, validator: ValidatorConfig)
    requires FeeEnriched(t, txs, bank, validator) && FeeEnriched(u, txs, bank, validator)
    ensures t == u
  {
  }

  /** A worked example: a transfer of 100 to "R" with bank fee 1 and
      validator fee 2 under lock "L". */
  lemma SendCoinsExample(sender: Account, locator: ValidatorLocator)
    ensures
      var bank := BankConfig("B", 1, "BANK", Some(locator));
      var validator := ValidatorConfig("V", 2, "VALIDATOR");
      var details := TransferDetails(sender, RawAccountNumber("R"), 100);
      AssembleBundle(Some("L"), sender, CoinTransfer(details), bank, validator)
      == Bundle(Some("L"),
                [Transaction("R", 100, None),
                 Transaction("B", 1, Some("BANK")),
                 Transaction("V", 2, Some("VALIDATOR"))],
                sender)
  {
  }

  /** The account number a recipient stands for: the raw string itself, or
      the account's hex account number. */
  function RecipientAccountNumber(r: Recipient): (n: string)
    ensures r.RawAccountNumber? ==> n == r.accountNumber
    ensures r.AccountRecipient? ==> n == r.account.accountNumberHex
  {
    match r
    case RawAccountNumber(s) => s
    case AccountRecipient(a) => a.accountNumberHex
  }

  /** The single-transaction request list `sendCoins` builds. */
  function CoinTransfer(details: TransferDetails): (txs: seq<Transaction>)
    ensures |txs| == 1
    ensures txs[0].recipient == RecipientAccountNumber(details.recipient)
    ensures txs[0].amount == details.amount && txs[0].fee.None?
  {
    [Transaction(RecipientAccountNumber(details.recipient), details.amount, None)]
  }

  // ---------------------------------------------------------------------
  // The handler
  // ---------------------------------------------------------------------

  /** The handler's lifecycle, derived from which slots are filled. */
  datatype Phase = Uninitialized | BankConfigLoaded | Ready

  class PaymentHandler {
    /** The URL of the bank proxy, fixed at construction. */
    const bankUrl: string
    var bankConfig: Option<BankConfig>
    var primaryValidator: Option<ValidatorProxy>
    var primaryValidatorConfig: Option<ValidatorConfig>

    /** The slots fill in order: a validator proxy only once a bank config is
        present, a validator config only once a validator proxy is. */
    ghost predicate Valid()
      reads this
    {
      && (primaryValidator.Some? ==> bankConfig.Some?)
      && (primaryValidatorConfig.Some? ==> primaryValidator.Some?)
    }

    function Phase(): Phase
      reads this
    {
      if primaryValidatorConfig.Some? then Ready
      else if bankConfig.Some? then BankConfigLoaded
      else Uninitialized
    }

    constructor (bankUrl: string)
      ensures Valid() && Phase() == Uninitialized
      ensures this.bankUrl == bankUrl
      ensures bankConfig.None? && primaryValidator.None? && primaryValidatorConfig.None?
    {
      this.bankUrl := bankUrl;
      bankConfig := None;
      primaryValidator := None;
      primaryValidatorConfig := None;
    }

    /** Stores the fetched bank config; on a failed fetch raises the bank
        config error carrying the cause and keeps the previous config. */
    method UpdateBank(fetched: Result<BankConfig, Cause>) returns (outcome: Outcome<Error>)
      requires Valid()
      modifies this
      ensures Valid()
      ensures fetched.Success? ==> outcome == Pass && bankConfig == Some(fetched.value)
      ensures fetched.Failure? ==>
        outcome == Fail(LoadError(BankConfigMessage, fetched.error)) && bankConfig == old(bankConfig)
      ensures primaryValidator == old(primaryValidator)
      ensures primaryValidatorConfig == old(primaryValidatorConfig)
    {
      if fetched.Failure? {
        return Fail(LoadError(BankConfigMessage, fetched.error));
      }
      bankConfig := Some(fetched.value);
      outcome := Pass;
    }

    /** Without a bank config, does nothing and succeeds. Otherwise builds the
        validator proxy for the bank's primary validator, then stores that
        validator's config; on a failed fetch the proxy has already been
        replaced, the previous validator config is kept, and the validator
        config error is raised. */
    method UpdatePrimaryValidator(validatorConfigAt: string -> Result<ValidatorConfig, Cause>)
      returns (outcome: Outcome<Error>)
      requires Valid()
      requires bankConfig.Some? ==> bankConfig.value.primaryValidator.Some?
      modifies this
      ensures Valid()
      ensures bankConfig == old(bankConfig)
      ensures old(bankConfig).None? ==>
        outcome == Pass && primaryValidator == old(primaryValidator)
        && primaryValidatorConfig == old(primaryValidatorConfig)
      ensures old(bankConfig).None? ==> primaryValidator.None? && primaryValidatorConfig.None?
      ensures old(bankConfig).Some? ==>
        var url := ValidatorUrl(old(bankConfig).value.primaryValidator.value);
        && primaryValidator == Some(ValidatorProxy(url))
        && match validatorConfigAt(url)
           case Success(c) => outcome == Pass && primaryValidatorConfig == Some(c)
           case Failure(e) =>
             outcome == Fail(LoadError(ValidatorConfigMessage, e))
             && primaryValidatorConfig == old(primaryValidatorConfig)
    {
      if bankConfig.None? {
        return Pass;
      }
      var loc := bankConfig.value.primaryValidator.value;
      var url := loc.protocol + "://" + loc.ipAddress;
      if loc.port.Some? {
        url := url + ":" + ToDecimal(loc.port.value);
      }
      assert url == ValidatorUrl(loc);
      primaryValidator := Some(ValidatorProxy(url));
      var fetched := validatorConfigAt(url);
      if fetched.Failure? {
        return Fail(LoadError(ValidatorConfigMessage, fetched.error));
      }
      primaryValidatorConfig := Some(fetched.value);
      outcome := Pass;
    }

    /** Loads the bank config and then the primary validator's. A failure
        stops the sequence and leaves the state the last completed step left. */
    method Init(bankFetched: Result<BankConfig, Cause>,
                validatorConfigAt: string -> Result<ValidatorConfig, Cause>)
      returns (outcome: Outcome<Error>)
      requires Valid()
      requires bankFetched.Success? ==> bankFetched.value.primaryValidator.Some?
      modifies this
      ensures Valid()
      ensures bankFetched.Failure? ==>
        && outcome == Fail(LoadError(BankConfigMessage, bankFetched.error))
        && bankConfig == old(bankConfig)
        && primaryValidator == old(primaryValidator)
        && primaryValidatorConfig == old(primaryValidatorConfig)
      ensures bankFetched.Success? ==>
        var url := ValidatorUrl(bankFetched.value.primaryValidator.value);
        && bankConfig == Some(bankFetched.value)
        && primaryValidator == Some(ValidatorProxy(url))
        && match validatorConfigAt(url)
           case Success(c) => outcome == Pass && primaryValidatorConfig == Some(c) && Phase() == Ready
           case Failure(e) =>
             outcome == Fail(LoadError(ValidatorConfigMessage, e))
             && primaryValidatorConfig == old(primaryValidatorConfig)
    {
      outcome := UpdateBank(bankFetched);
      if outcome.Fail? {
        return;
      }
      outcome := UpdatePrimaryValidator(validatorConfigAt);
    }

    /** What `createTransaction` needs of the handler: a validator proxy to
        ask for the lock, and, once a lock has been obtained, both configs. */
    predicate CanCreate(sender: Account, balanceLockAt: (string, string) -> Result<Option<string>, Cause>)
      reads this
    {
      && primaryValidator.Some?
      && (balanceLockAt(primaryValidator.value.url, sender.accountNumberHex).Success? ==>
            bankConfig.Some? && primaryValidatorConfig.Some?)
    }

    /** Asks the primary validator for the sender's balance lock, then
        appends the bank's and the validator's fee transactions to `txs`. A
        failed lock fetch raises the balance-lock error and yields no bundle. */
    function CreateTransaction(sender: Account, txs: seq<Transaction>,
                               balanceLockAt: (string, string) -> Result<Option<string>, Cause>)
      : (r: Result<Bundle, Error>)
      reads this
      requires CanCreate(sender, balanceLockAt)
      ensures
        var fetched := balanceLockAt(primaryValidator.value.url, sender.accountNumberHex);
        && (fetched.Failure? ==> r == Failure(LoadError(BalanceLockMessage, fetched.error)))
        && (fetched.Success? ==>
              && r.Success?
              && r.value.balanceLock == fetched.value
              && r.value.sender == sender
              && FeeEnriched(r.value.transactions, txs, bankConfig.value, primaryValidatorConfig.value))
    {
      match balanceLockAt(primaryValidator.value.url, sender.accountNumberHex)
      case Failure(e) => Failure(LoadError(BalanceLockMessage, e))
      case Success(lock) =>
        Success(AssembleBundle(lock, sender, txs, bankConfig.value, primaryValidatorConfig.value))
    }

    /** A Ready handler has all three slots filled, so it can create a
        transaction for any sender whatever the validator answers. */
    lemma ReadyCanCreate(sender: Account, balanceLockAt: (string, string) -> Result<Option<string>, Cause>)
      requires Valid() && Phase() == Ready
      ensures bankConfig.Some? && primaryValidator.Some? && primaryValidatorConfig.Some?
      ensures CanCreate(sender, balanceLockAt)
    {
    }

    /** `r` is the bank's answer to `request`: success with that request
        exactly when the bank accepts it, otherwise its cause unwrapped. */
    predicate BankAnswered(r: Result<AddBlocksRequest, Error>, request: AddBlocksRequest,
                           addBlocks: (string, AddBlocksRequest) -> Outcome<Cause>)
    {
      && (r.Success? <==> addBlocks(bankUrl, request).Pass?)
      && (r.Success? ==> r.value == request)
      && (r.Failure? ==> r.error == RemoteError(addBlocks(bankUrl, request).error))
    }

    /** Submits the bundle to the bank in one `addBlocks` call, carrying its
        lock, its transactions in order and its sender. A rejection surfaces
        unwrapped. On success the result is the request the bank accepted. */
    function BroadcastTransaction(bundle: Bundle, addBlocks: (string, AddBlocksRequest) -> Outcome<Cause>)
      : (r: Result<AddBlocksRequest, Error>)
      requires bundle.balanceLock.Some?
      ensures BankAnswered(r, AddBlocksRequest(bundle.balanceLock.value, bundle.transactions, bundle.sender), addBlocks)
    {
      var request := AddBlocksRequest(bundle.balanceLock.value, bundle.transactions, bundle.sender);
      match addBlocks(bankUrl, request)
      case Pass => Success(request)
      case Fail(c) => Failure(RemoteError(c))
    }

    /** What the send compositions need: `createTransaction`'s requirement,
        and a non-null lock once one has been fetched. */
    predicate CanSend(sender: Account, balanceLockAt: (string, string) -> Result<Option<string>, Cause>)
      reads this
    {
      && CanCreate(sender, balanceLockAt)
      && (balanceLockAt(primaryValidator.value.url, sender.accountNumberHex).Success? ==>
            balanceLockAt(primaryValidator.value.url, sender.accountNumberHex).value.Some?)
    }

    /** Creates the fee-enriched bundle for `txs` and broadcasts it. */
    function SendBulkTransactions(sender: Account, txs: seq<Transaction>,
                                  balanceLockAt: (string, string) -> Result<Option<string>, Cause>,
                                  addBlocks: (string, AddBlocksRequest) -> Outcome<Cause>)
      : (r: Result<AddBlocksRequest, Error>)
      reads this
      requires CanSend(sender, balanceLockAt)
      ensures
        var fetched := balanceLockAt(primaryValidator.value.url, sender.accountNumberHex);
        && (fetched.Failure? ==> r == Failure(LoadError(BalanceLockMessage, fetched.error)))
        && (r.Success? ==>
              && addBlocks(bankUrl, r.value).Pass?
              && fetched == Success(Some(r.value.balanceLock))
              && r.value.sender == sender
              && FeeEnriched(r.value.transactions, txs, bankConfig.value, primaryValidatorConfig.value))
        && (fetched.Success? ==>
              forall t :: FeeEnriched(t, txs, bankConfig.value, primaryValidatorConfig.value) ==>
                BankAnswered(r, AddBlocksRequest(fetched.value.value, t, sender), addBlocks))
    {
      var fetched := balanceLockAt(primaryValidator.value.url, sender.accountNumberHex);
      assert fetched.Success? ==>
        forall t :: FeeEnriched(t, txs, bankConfig.value, primaryValidatorConfig.value) ==>
          t == AssembleBundle(fetched.value, sender, txs, bankConfig.value, primaryValidatorConfig.value).transactions
      by {
        if fetched.Success? {
          var b := AssembleBundle(fetched.value, sender, txs, bankConfig.value, primaryValidatorConfig.value);
          forall t | FeeEnriched(t, txs, bankConfig.value, primaryValidatorConfig.value)
            ensures t == b.transactions
          {
            FeeEnrichedUnique(t, b.transactions, txs, bankConfig.value, primaryValidatorConfig.value);
          }
        }
      }
      match CreateTransaction(sender, txs, balanceLockAt)
      case Failure(e) => Failure(e)
      case Success(bundle) => BroadcastTransaction(bundle, addBlocks)
    }

    /** Sends `amount` to one recipient, given as a raw account number or an
        account: a bulk send of the single transfer `CoinTransfer` builds. */
    function SendCoins(details: TransferDetails,
                       balanceLockAt: (string, string) -> Result<Option<string>, Cause>,
                       addBlocks: (string, AddBlocksRequest) -> Outcome<Cause>)
      : (r: Result<AddBlocksRequest, Error>)
      reads this
      requires CanSend(details.sender, balanceLockAt)
      ensures
        var fetched := balanceLockAt(primaryValidator.value.url, details.sender.accountNumberHex);
        var transfer := [Transaction(RecipientAccountNumber(details.recipient), details.amount, None)];
        && (fetched.Failure? ==> r == Failure(LoadError(BalanceLockMessage, fetched.error)))
        && (fetched.Success? ==>
              forall t :: FeeEnriched(t, transfer, bankConfig.value, primaryValidatorConfig.value) ==>
                BankAnswered(r, AddBlocksRequest(fetched.value.value, t, details.sender), addBlocks))
    {
      SendBulkTransactions(details.sender, CoinTransfer(details), balanceLockAt, addBlocks)
    }

    /** A recipient given as a raw account number and one given as an account
        with that account number lead to the same submission. */
    lemma SendCoinsRecipientForms(sender: Account, account: Account, amount: int,
                                  balanceLockAt: (string, string) -> Result<Option<string>, Cause>,
                                  addBlocks: (string, AddBlocksRequest) -> Outcome<Cause>)
      requires CanSend(sender, balanceLockAt)
      ensures SendCoins(TransferDetails(sender, RawAccountNumber(account.accountNumberHex), amount), balanceLockAt, addBlocks)
           == SendCoins(TransferDetails(sender, AccountRecipient(account), amount), balanceLockAt, addBlocks)
    {
    }

    /** When the lock cannot be fetched nothing is submitted: the outcome does
        not depend on the bank at all. */
    lemma NoLockNoBroadcast(sender: Account, txs: seq<Transaction>,
                            balanceLockAt: (string, string) -> Result<Option<string>, Cause>,
                            addBlocks1: (string, AddBlocksRequest) -> Outcome<Cause>,
                            addBlocks2: (string, AddBlocksRequest) -> Outcome<Cause>)
      requires CanSend(sender, balanceLockAt)
      requires balanceLockAt(primaryValidator.value.url, sender.accountNumberHex).Failure?
      ensures SendBulkTransactions(sender, txs, balanceLockAt, addBlocks1)
           == SendBulkTransactions(sender, txs, balanceLockAt, addBlocks2)
      ensures SendBulkTransactions(sender, txs, balanceLockAt, addBlocks1).Failure?
    {
    }
  }
}
