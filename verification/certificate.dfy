/** The certificate contract: a certificate counter, the issued certificates
    and a balance per account. Only the contract owner issues; anyone may
    transfer what they hold. */
module CertificateLedger {
  import opened Outcome
  import opened Balances

  /** The one identity allowed to issue certificates. */
  const ContractOwner: Account := "CONTRACT_OWNER"

  /** One issuance. The retirement flag is only ever initialised. */
  datatype Certificate = Certificate(owner: Account, amount: int, isRetired: bool)

  datatype State = State(
    nonce: nat,                               // the last certificate id handed out
    certificates: map<int, Certificate>,
    balances: map<Account, int>)

  /** The state before any call. */
  const Initial: State := State(0, map[], map[])

  /** The summed amounts of certificates 1..n: everything ever issued when
      n is the nonce. */
  function IssuedUpTo(certificates: map<int, Certificate>, n: nat): int
  {
    if n == 0 then 0
    else IssuedUpTo(certificates, n - 1) + (if n in certificates then certificates[n].amount else 0)
  }

  /** Certificates are stored under 1..nonce, and the balances add up to
      exactly what has been issued. */
  ghost predicate Valid(s: State)
  {
    && Dense(s.certificates, s.nonce)
    && Total(s.balances) == IssuedUpTo(s.certificates, s.nonce)
  }

  /** `issue-certificate(producer, amount)` called by `sender`. */
  function IssueCertificate(s: State, sender: Account, producer: Account, amount: int): (r: Step<State, nat>)
    ensures r.result.Ok? <==> sender == ContractOwner
    ensures r.result.Err? ==> r.result.error == NotAuthorized && r.state == s
    ensures r.result.Ok? ==>
      && r.result.value == s.nonce + 1
      && r.state.nonce == r.result.value
      && Stores(s.certificates, r.state.certificates, r.result.value, Certificate(producer, amount, false))
      && BalanceOf(r.state.balances, producer) == BalanceOf(s.balances, producer) + amount
      && (forall a :: a != producer ==> BalanceOf(r.state.balances, a) == BalanceOf(s.balances, a))
  {
    if sender != ContractOwner then Step(Err(NotAuthorized), s)
    else
      var id := s.nonce + 1;
      var certificates := s.certificates[id := Certificate(producer, amount, false)];
      Step(Ok(id), State(id, certificates, Credit(s.balances, producer, amount)))
  }

  /** `transfer(recipient, amount)` called by `sender`. The recipient's
      balance is read after the sender's debit, so a self-transfer leaves
      the balance where it was. */
  function Transfer(s: State, sender: Account, recipient: Account, amount: int): (r: Step<State, ()>)
    ensures r.result.Err? <==> BalanceOf(s.balances, sender) < amount
    ensures r.result.Err? ==> r.result.error == InsufficientBalance && r.state == s
    ensures r.state.nonce == s.nonce && r.state.certificates == s.certificates
    ensures r.result.Ok? && sender != recipient ==>
      && BalanceOf(r.state.balances, sender) == BalanceOf(s.balances, sender) - amount
      && BalanceOf(r.state.balances, recipient) == BalanceOf(s.balances, recipient) + amount
    ensures sender == recipient ==> BalanceOf(r.state.balances, sender) == BalanceOf(s.balances, sender)
    ensures forall a :: a != sender && a != recipient ==> BalanceOf(r.state.balances, a) == BalanceOf(s.balances, a)
  {
    var senderBalance := BalanceOf(s.balances, sender);
    if senderBalance < amount then Step(Err(InsufficientBalance), s)
    else
      var debited := Credit(s.balances, sender, -amount);
      Step(Ok(()), s.(balances := Credit(debited, recipient, amount)))
  }

  /** `get-balance(account)`: never fails; an account never credited holds 0. */
  function GetBalance(s: State, account: Account): (r: Result<int>)
    ensures r.Ok?
    ensures account !in s.balances ==> r.value == 0
    ensures NonNegative(s.balances) ==> r.value >= 0
    ensures account in s.balances ==> r.value == s.balances[account]
  {
    Ok(BalanceOf(s.balances, account))
  }

  /** `get-certificate(id)`: never fails; an unknown id yields `None`. */
  function GetCertificate(s: State, id: int): (r: Result<Option<Certificate>>)
    ensures r.Ok?
    ensures r.value.Some? <==> id in s.certificates
    ensures r.value.Some? ==> r.value.value == s.certificates[id]
    ensures Valid(s) ==> (r.value.Some? <==> 1 <= id <= s.nonce)
  {
    if id in s.certificates then Ok(Some(s.certificates[id])) else Ok(None)
  }

  /** The methods of the contract. */
  datatype Op =
    | Issue(producer: Account, amount: int)
    | Send(recipient: Account, amount: int)
    | BalanceQuery(account: Account)
    | CertificateQuery(id: int)
    | Unknown(name: string)
  {
    predicate IsRead() { BalanceQuery? || CertificateQuery? }

    /** The amount the call moves is not negative. */
    predicate HasNonNegativeAmount()
    {
      (Issue? ==> amount >= 0) && (Send? ==> amount >= 0)
    }
  }

  /** The `value` of a successful call. */
  datatype Reply = NewId(id: nat) | Done | Balance(balance: int) | Found(certificate: Option<Certificate>)

  /** One call, dispatched on its method. */
  function Call(s: State, sender: Account, op: Op): (r: Step<State, Reply>)
    ensures r.result.Err? ==> r.state == s
    ensures op.IsRead() ==> r.result.Ok? && r.state == s
    ensures op.Unknown? ==> r.result == Err(MethodNotFound)
    ensures !op.Issue? ==> r.state.nonce == s.nonce && r.state.certificates == s.certificates
    ensures r.state.nonce == s.nonce || r.state.nonce == s.nonce + 1
  {
    match op
    case Issue(producer, amount) =>
      var step := IssueCertificate(s, sender, producer, amount);
      Step(if step.result.Ok? then Ok(NewId(step.result.value)) else Err(step.result.error), step.state)
    case Send(recipient, amount) =>
      var step := Transfer(s, sender, recipient, amount);
      Step(if step.result.Ok? then Ok(Done) else Err(step.result.error), step.state)
    case BalanceQuery(account) =>
      Step(Ok(Balance(GetBalance(s, account).value)), s)
    case CertificateQuery(id) =>
      Step(Ok(Found(GetCertificate(s, id).value)), s)
    case Unknown(_) =>
      Step(Err(MethodNotFound), s)
  }

  /** A caller together with what it calls. */
  datatype Invocation = Invocation(sender: Account, op: Op)

  /** The state after a sequence of calls, applied in order. */
  function Run(s: State, calls: seq<Invocation>): State
    decreases |calls|
  {
    if |calls| == 0 then s
    else Run(Call(s, calls[0].sender, calls[0].op).state, calls[1..])
  }

  /** `IssuedUpTo` only looks at ids 1..n. */
  lemma {:induction false} IssuedFrame(c: map<int, Certificate>, c': map<int, Certificate>, n: nat)
    requires forall i :: 1 <= i <= n ==> (i in c <==> i in c')
    requires forall i :: 1 <= i <= n && i in c ==> c[i] == c'[i]
    ensures IssuedUpTo(c, n) == IssuedUpTo(c', n)
  {
    if n > 0 {
      IssuedFrame(c, c', n - 1);
    }
  }

  lemma InitialValid()
    ensures Valid(Initial)
    ensures NonNegative(Initial.balances)
  {
  }

  /** Issuance adds to the circulating supply exactly what it records as issued. */
  lemma IssuePreservesValid(s: State, sender: Account, producer: Account, amount: int)
    requires Valid(s)
    ensures Valid(IssueCertificate(s, sender, producer, amount).state)
    ensures IssueCertificate(s, sender, producer, amount).result.Ok? ==>
      Total(IssueCertificate(s, sender, producer, amount).state.balances) == Total(s.balances) + amount
  {
    if sender == ContractOwner {
      var s' := IssueCertificate(s, sender, producer, amount).state;
      IssuedFrame(s.certificates, s'.certificates, s.nonce);
      TotalCredit(s.balances, producer, amount);
    }
  }

  /** A transfer conserves the sum of all balances, whether it succeeds or not. */
  lemma TransferConservesTotal(s: State, sender: Account, recipient: Account, amount: int)
    ensures Total(Transfer(s, sender, recipient, amount).state.balances) == Total(s.balances)
  {
    if BalanceOf(s.balances, sender) >= amount {
      var debited := Credit(s.balances, sender, -amount);
      TotalCredit(s.balances, sender, -amount);
      TotalCredit(debited, recipient, amount);
    }
  }

  /** Every call keeps the ids dense and the supply equal to what was issued. */
  lemma CallPreservesValid(s: State, sender: Account, op: Op)
    requires Valid(s)
    ensures Valid(Call(s, sender, op).state)
  {
    match op
    case Issue(producer, amount) => IssuePreservesValid(s, sender, producer, amount);
    case Send(recipient, amount) => TransferConservesTotal(s, sender, recipient, amount);
    case _ =>
  }

  /** With non-negative amounts no call drives a balance below zero. */
  lemma CallPreservesNonNegative(s: State, sender: Account, op: Op)
    requires NonNegative(s.balances)
    requires op.HasNonNegativeAmount()
    ensures NonNegative(Call(s, sender, op).state.balances)
  {
  }

  lemma {:induction false} RunPreservesValid(s: State, calls: seq<Invocation>)
    requires Valid(s)
    ensures Valid(Run(s, calls))
    decreases |calls|
  {
    if |calls| > 0 {
      CallPreservesValid(s, calls[0].sender, calls[0].op);
      RunPreservesValid(Call(s, calls[0].sender, calls[0].op).state, calls[1..]);
    }
  }

  lemma {:induction false} RunPreservesNonNegative(s: State, calls: seq<Invocation>)
    requires NonNegative(s.balances)
    requires forall i :: 0 <= i < |calls| ==> calls[i].op.HasNonNegativeAmount()
    ensures NonNegative(Run(s, calls).balances)
    decreases |calls|
  {
    if |calls| > 0 {
      CallPreservesNonNegative(s, calls[0].sender, calls[0].op);
      RunPreservesNonNegative(Call(s, calls[0].sender, calls[0].op).state, calls[1..]);
    }
  }

  /** Without issuance, any sequence of calls keeps the supply constant and
      issues no certificate. */
  lemma {:induction false} RunWithoutIssueConserves(s: State, calls: seq<Invocation>)
    requires forall i :: 0 <= i < |calls| ==> !calls[i].op.Issue?
    ensures Total(Run(s, calls).balances) == Total(s.balances)
    ensures Run(s, calls).nonce == s.nonce
    ensures Run(s, calls).certificates == s.certificates
    decreases |calls|
  {
    if |calls| > 0 {
      var op := calls[0].op;
      if op.Send? {
        TransferConservesTotal(s, calls[0].sender, op.recipient, op.amount);
      }
      RunWithoutIssueConserves(Call(s, calls[0].sender, op).state, calls[1..]);
    }
  }

  /** The certificate counter never goes back, so an id is never reused. */
  lemma {:induction false} RunNonceMonotone(s: State, calls: seq<Invocation>)
    ensures Run(s, calls).nonce >= s.nonce
    decreases |calls|
  {
    if |calls| > 0 {
      RunNonceMonotone(Call(s, calls[0].sender, calls[0].op).state, calls[1..]);
    }
  }

  /** The contract's own examples: issue 1000 to producer1, move 500 to
      user2, and producer1 holds 500; moving 1500 from a 1000 balance fails
      and leaves it at 1000; issuing as user1 fails. */
  lemma Examples()
    ensures IssueCertificate(Initial, "user1", "producer1", 1000).result == Err(NotAuthorized)
    ensures IssueCertificate(Initial, "user1", "producer1", 1000).state == Initial
    ensures var issued := IssueCertificate(Initial, ContractOwner, "producer1", 1000);
      && issued.result == Ok(1)
      && GetCertificate(issued.state, 1) == Ok(Some(Certificate("producer1", 1000, false)))
      && Transfer(issued.state, "producer1", "user2", 1500).result == Err(InsufficientBalance)
      && GetBalance(Transfer(issued.state, "producer1", "user2", 1500).state, "producer1") == Ok(1000)
      && Transfer(issued.state, "producer1", "user2", 500).result == Ok(())
      && GetBalance(Transfer(issued.state, "producer1", "user2", 500).state, "producer1") == Ok(500)
      && GetBalance(Transfer(issued.state, "producer1", "user2", 500).state, "user2") == Ok(500)
  {
  }
}
