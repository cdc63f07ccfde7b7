/** Options, results and the failures the wagering core reports. */
module Base {

  datatype Option<+T> = None | Some(value: T)

  /** The stable code of a domain rejection; NoCode is the empty code. */
  datatype Code =
    | NoCode
    | InvalidCurrency | InvalidAmount | NegativeAmount | AmountOverflow | CurrencyMismatch
    | InvalidIdentifier | InvalidTimestamp | InvalidDirection | NonPositiveAmount
    | InconsistentEntry | InsufficientFunds | InvalidVersion
    | InvalidKind | InvalidStatus | InvalidTransition | InvalidAmountForKind
    | MissingReference | UnexpectedReference
    | ReferenceNotFound | ReferenceMismatch | ReferenceAmountMismatch
    | ReferenceNotReversible | AlreadyReversed | ReversalExceedsBalance

  /** The uniqueness rules of the schema, by the name the adapter reports. */
  datatype Rule =
    | TransactionKey
    | BusinessIdentity
    | IdempotencyKeyRule
    | OneOpeningPerWallet
    | OneReversalPerOperation
    | WalletKey
    | OneWalletPerPlayerAndCurrency
    | LedgerKey
    | OneEntryPerTransaction
    | OutboxKey
    | InboxIdentity
    | DifferentContent
    | DifferentKey
    | AlreadyTerminal

  datatype Error =
    | Domain(code: Code)
    | Conflict(rule: Rule)
    | NotFound
    | InvariantViolated
    | VersionMismatch
    | SerializationFailure
    | InvalidInput
    | Unavailable

  datatype Result<+T> = Ok(value: T) | Err(error: Error) {
    predicate IsFailure() { Err? }

    function PropagateFailure<U>(): Result<U>
      requires Err?
    {
      Err(error)
    }

    function Extract(): T
      requires Ok?
    {
      value
    }
  }
}
