/** The checks before any database work (internal/service/transfer_service.go, account_service.go). */
module Validation {
  import opened Options
  import opened Errors
  import opened Money
  import opened Schema

  /** The Idempotency-Key as text: absent, not a UUID, or a canonical UUID. */
  datatype KeyText = NoKey | Malformed | Canonical(key: Key)

  datatype TransferRequest = TransferRequest(source: int, dest: int, amount: Decimal, key: KeyText)

  function ValidateAccountId(id: int): Option<Error> {
    if id <= 0 then Some(Sentinel(InvalidAccountId)) else None
  }

  function Validate(r: TransferRequest): Option<Error> {
    if ValidateAccountId(r.source).Some? then ValidateAccountId(r.source)
    else if ValidateAccountId(r.dest).Some? then ValidateAccountId(r.dest)
    else if r.source == r.dest then Some(Sentinel(SameAccount))
    else if ValidateAmount(r.amount).Some? then ValidateAmount(r.amount)
    else if r.key.Malformed? then Some(Sentinel(InvalidIdempotency))
    else None
  }

  function ValidateOpening(account: int, balance: Decimal): Option<Error> {
    if ValidateAccountId(account).Some? then ValidateAccountId(account) else ValidateInitialBalance(balance)
  }

  /** The command that a request stands for: its own accounts and key, and its amount in units of
      the stored column. */
  function CmdOf(r: TransferRequest): (cmd: Cmd)
    requires r.amount.exponent >= -MAX_DECIMAL_PLACES
    ensures forall k: Key :: cmd.key == Some(k) <==> r.key == Canonical(k)
  {
    Cmd(r.source, r.dest, Units(r.amount), match r.key case Canonical(k) => Some(k) case _ => None)
  }

  predicate GoodAccounts(r: TransferRequest) { r.source > 0 && r.dest > 0 && r.source != r.dest }

  /** A decimal of at most eighteen places, in units of 10^-18. */
  predicate InColumn(d: Decimal, low: int) {
    d.exponent >= -MAX_DECIMAL_PLACES && low <= Units(d) < MAX_UNITS
  }

  /** The accepted requests are exactly those with positive distinct account ids, a positive
      amount in range of at most eighteen places, and no malformed key; and each of them is a
      command that the schema's constraints admit. */
  lemma AcceptedRequests(r: TransferRequest)
    ensures Validate(r).None? <==>
            && r.amount.exponent >= -MAX_DECIMAL_PLACES && !r.key.Malformed?
            && ValidCmd(CmdOf(r))
    ensures Validate(r).None? <==> GoodAccounts(r) && InColumn(r.amount, 1) && !r.key.Malformed?
    ensures Validate(r).Some? ==> !IsDbFailure(Validate(r).value) && !IsRetryable(Validate(r).value)
  {
    AcceptedAmounts(r.amount);
  }

  /** What each rejected request is told: the first of its faults in the order of the checks. */
  lemma RequestChecks(r: TransferRequest)
    ensures Validate(r) == Some(Sentinel(InvalidAccountId)) <==> r.source <= 0 || r.dest <= 0
    ensures Validate(r) == Some(Sentinel(SameAccount)) <==> r.source == r.dest > 0
    ensures Validate(r) == Some(Sentinel(InvalidAmount)) <==> GoodAccounts(r) && !InColumn(r.amount, 1)
    ensures Validate(r) == Some(Sentinel(InvalidIdempotency)) <==>
            GoodAccounts(r) && InColumn(r.amount, 1) && r.key.Malformed?
  {
    AcceptedAmounts(r.amount);
  }

  /** The same for openings, where a balance of zero is welcome. */
  lemma OpeningChecks(account: int, balance: Decimal)
    ensures ValidateOpening(account, balance).None? <==>
            balance.exponent >= -MAX_DECIMAL_PLACES && ValidOpening(account, Units(balance))
    ensures ValidateOpening(account, balance) == Some(Sentinel(InvalidAccountId)) <==> account <= 0
    ensures ValidateOpening(account, balance) == Some(Sentinel(InvalidAmount)) <==> account > 0 && !InColumn(balance, 0)
    ensures !DbFailed(ValidateOpening(account, balance))
  {
    AcceptedAmounts(balance);
  }

  /** Two accepted requests stand for one command exactly if they agree in both accounts, in the
      value of the amount, and in the key or its absence. */
  lemma SameCommandIff(r: TransferRequest, q: TransferRequest)
    requires Validate(r).None? && Validate(q).None?
    ensures r.amount.exponent >= -MAX_DECIMAL_PLACES && q.amount.exponent >= -MAX_DECIMAL_PLACES
    ensures CmdOf(r) == CmdOf(q) <==>
            r.source == q.source && r.dest == q.dest && Equal(r.amount, q.amount) && r.key == q.key
  {
    AcceptedRequests(r);
    AcceptedRequests(q);
    ArithmeticIsExact(r.amount, q.amount);
  }

  /** matchesCmd compares the stored amount with the request's decimal; on accepted amounts that
      is equality of the stored values. */
  lemma MatchingIsExact(t: Transfer, r: TransferRequest)
    requires Validate(r).None?
    ensures r.amount.exponent >= -MAX_DECIMAL_PLACES
    ensures (t.source == r.source && t.dest == r.dest && Equal(Load(t.amount), r.amount)) <==> Matches(t, CmdOf(r))
  {
  }
}
