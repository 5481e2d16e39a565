/** The bounded "nonce too low" retry loop at the end of `sell_token`
    (moonshot/moonshotActionProvider.ts). Each pass estimates gas, sends the
    sell transaction with the current nonce and waits for its receipt. A
    "nonce too low" error re-reads the nonce and counts one attempt, and the
    fifth such error is rethrown; any other error is rethrown at once; a
    receipt with status 1 ends the loop with success. A receipt without
    status 1 and without an error neither ends the loop nor counts, so the
    chain's answers are given as a finite sequence, one per pass, and a loop
    that outlives them ends as `Stalled`. */
module SellRetry {
  import opened Wrappers
  import opened Text

  const NonceTooLow := "nonce too low"
  const MaxNonceRetries := 5

  /** What one pass of the loop body met. */
  datatype SendOutcome =
    | Confirmed
    | Unconfirmed
      /** An `Error` with this message; `reread` is what `getTransactionCount`
          returns should the catch block re-read the nonce. */
    | Failed(message: string, reread: Result<int>)

  datatype Verdict = Sold | Rethrown(error: string) | Stalled

  /** The verdict and the nonce each submission was sent with. */
  datatype RetryRun = RetryRun(verdict: Verdict, nonces: seq<int>)

  predicate IsNonceTooLow(o: SendOutcome) {
    o.Failed? && Contains(o.message, NonceTooLow)
  }

  /** An outcome after which the loop goes round again. */
  predicate Retryable(o: SendOutcome) {
    o == Unconfirmed || (IsNonceTooLow(o) && o.reread.Success?)
  }

  function NonceErrors(p: seq<SendOutcome>): nat {
    if p == [] then 0 else (if IsNonceTooLow(p[0]) then 1 else 0) + NonceErrors(p[1..])
  }

  /** The loop, pass by pass, from a nonce and an attempt count. */
  function Retry(nonce: int, attempts: nat, sends: seq<SendOutcome>): (r: RetryRun)
    requires attempts < MaxNonceRetries
    ensures 0 < |r.nonces| <= |sends| || (sends == [] && r.nonces == [])
    ensures sends != [] ==> r.nonces[0] == nonce
    decreases |sends|
  {
    if sends == [] then RetryRun(Stalled, [])
    else
      match sends[0]
      case Confirmed => RetryRun(Sold, [nonce])
      case Unconfirmed =>
        var r := Retry(nonce, attempts, sends[1..]);
        RetryRun(r.verdict, [nonce] + r.nonces)
      case Failed(message, reread) =>
        if !Contains(message, NonceTooLow) then RetryRun(Rethrown(ErrorText(message)), [nonce])
        else if reread.Failure? then RetryRun(Rethrown(reread.error), [nonce])
        else if attempts + 1 == MaxNonceRetries then RetryRun(Rethrown(ErrorText(message)), [nonce])
        else
          var r := Retry(reread.value, attempts + 1, sends[1..]);
          RetryRun(r.verdict, [nonce] + r.nonces)
  }

  /** The loop as the source runs it, with `nonce` and `attempts` updated in place. */
  method SellRetryLoop(nonce0: int, sends: seq<SendOutcome>) returns (r: RetryRun)
    ensures r == Retry(nonce0, 0, sends)
  {
    var nonce, attempts, i := nonce0, 0, 0;
    var nonces: seq<int> := [];
    // The source's guard `attempts < 5` holds on every pass: the fifth
    // nonce error leaves the loop by rethrowing, so only the chain's
    // answers can run out.
    while i < |sends|
      invariant 0 <= i <= |sends| && 0 <= attempts < MaxNonceRetries
      invariant Retry(nonce0, 0, sends).verdict == Retry(nonce, attempts, sends[i..]).verdict
      invariant Retry(nonce0, 0, sends).nonces == nonces + Retry(nonce, attempts, sends[i..]).nonces
      decreases |sends| - i
    {
      assert sends[i..][1..] == sends[i + 1..];
      nonces := nonces + [nonce];
      match sends[i] {
      case Confirmed =>
        return RetryRun(Sold, nonces);
      case Unconfirmed =>
      case Failed(message, reread) =>
        if Contains(message, NonceTooLow) {
          if reread.Failure? {
            return RetryRun(Rethrown(reread.error), nonces);
          }
          nonce := reread.value;
          attempts := attempts + 1;
          if attempts == MaxNonceRetries {
            return RetryRun(Rethrown(ErrorText(message)), nonces);
          }
        } else {
          return RetryRun(Rethrown(ErrorText(message)), nonces);
        }
      }
      i := i + 1;
    }
    return RetryRun(Stalled, nonces);
  }

  lemma NonceErrorsStep(sends: seq<SendOutcome>, j: nat)
    requires 0 < j <= |sends|
    ensures NonceErrors(sends[..j]) == (if IsNonceTooLow(sends[0]) then 1 else 0) + NonceErrors(sends[1..][..j - 1])
  {
    assert sends[..j][1..] == sends[1..][..j - 1];
  }

  /** Pass `j` is confirmed, every pass before it went round again, and
      those passes met fewer nonce errors than the attempts still left. */
  predicate SoldAt(attempts: nat, sends: seq<SendOutcome>, j: int) {
    0 <= j < |sends| && sends[j] == Confirmed &&
    (forall k :: 0 <= k < j ==> Retryable(sends[k])) &&
    attempts + NonceErrors(sends[..j]) < MaxNonceRetries
  }

  /** A sold verdict has a confirmed pass that the loop reached. */
  lemma {:induction false} SoldOnlyAtConfirmed(nonce: int, attempts: nat, sends: seq<SendOutcome>)
    requires attempts < MaxNonceRetries
    requires Retry(nonce, attempts, sends).verdict == Sold
    ensures exists j :: SoldAt(attempts, sends, j)
    decreases |sends|
  {
    var rest := sends[1..];
    match sends[0]
    case Confirmed =>
      assert sends[..0] == [];
      assert SoldAt(attempts, sends, 0);
    case Unconfirmed =>
      SoldOnlyAtConfirmed(nonce, attempts, rest);
      var j' :| SoldAt(attempts, rest, j');
      NonceErrorsStep(sends, j' + 1);
      assert sends[j' + 1] == Confirmed;
      assert SoldAt(attempts, sends, j' + 1);
    case Failed(message, reread) =>
      SoldOnlyAtConfirmed(reread.value, attempts + 1, rest);
      var j' :| SoldAt(attempts + 1, rest, j');
      NonceErrorsStep(sends, j' + 1);
      assert sends[j' + 1] == Confirmed;
      assert SoldAt(attempts, sends, j' + 1);
  }

  /** A confirmed pass that the loop reaches makes the sale. */
  lemma {:induction false} ConfirmedReachedSold(nonce: int, attempts: nat, sends: seq<SendOutcome>, j: int)
    requires attempts < MaxNonceRetries
    requires SoldAt(attempts, sends, j)
    ensures Retry(nonce, attempts, sends).verdict == Sold
    decreases |sends|
  {
    if j != 0 {
      var rest := sends[1..];
      NonceErrorsStep(sends, j);
      assert Retryable(sends[0]);
      assert rest[j - 1] == Confirmed;
      forall k | 0 <= k < j - 1 ensures Retryable(rest[k]) { assert rest[k] == sends[k + 1]; }
      if sends[0] == Unconfirmed {
        assert SoldAt(attempts, rest, j - 1);
        ConfirmedReachedSold(nonce, attempts, rest, j - 1);
      } else {
        assert SoldAt(attempts + 1, rest, j - 1);
        ConfirmedReachedSold(sends[0].reread.value, attempts + 1, rest, j - 1);
      }
    }
  }

  /** The sale succeeds exactly when some pass is confirmed, every pass before
      it went round again, and those passes met fewer nonce errors than the
      attempts still left (`SoldAt`). */
  lemma SoldIff(nonce: int, attempts: nat, sends: seq<SendOutcome>)
    requires attempts < MaxNonceRetries
    ensures Retry(nonce, attempts, sends).verdict == Sold <==> exists j :: SoldAt(attempts, sends, j)
  {
    if Retry(nonce, attempts, sends).verdict == Sold {
      SoldOnlyAtConfirmed(nonce, attempts, sends);
    }
    if j :| SoldAt(attempts, sends, j) {
      ConfirmedReachedSold(nonce, attempts, sends, j);
    }
  }

  /** Once the earlier passes have used up all but one attempt, the next
      "nonce too low" error is rethrown, after one submission per pass. */
  lemma {:induction false} FifthNonceErrorRethrown(nonce: int, attempts: nat, p: seq<SendOutcome>,
                                                   f: SendOutcome, rest: seq<SendOutcome>)
    requires attempts < MaxNonceRetries
    requires forall k :: 0 <= k < |p| ==> Retryable(p[k])
    requires attempts + NonceErrors(p) == MaxNonceRetries - 1
    requires IsNonceTooLow(f) && f.reread.Success?
    ensures Retry(nonce, attempts, p + [f] + rest).verdict == Rethrown(ErrorText(f.message))
    ensures |Retry(nonce, attempts, p + [f] + rest).nonces| == |p| + 1
    decreases |p|
  {
    var sends := p + [f] + rest;
    if p != [] {
      assert sends[1..] == p[1..] + [f] + rest;
      assert Retryable(p[0]);
      if p[0] == Unconfirmed {
        FifthNonceErrorRethrown(nonce, attempts, p[1..], f, rest);
      } else {
        FifthNonceErrorRethrown(p[0].reread.value, attempts + 1, p[1..], f, rest);
      }
    }
  }

  /** However long the chain keeps answering, the loop consumes no more
      "nonce too low" errors than the attempts it has left. */
  lemma {:induction false} NonceErrorsBounded(nonce: int, attempts: nat, sends: seq<SendOutcome>)
    requires attempts < MaxNonceRetries
    ensures attempts + NonceErrors(sends[..|Retry(nonce, attempts, sends).nonces|]) <= MaxNonceRetries
    decreases |sends|
  {
    var r := Retry(nonce, attempts, sends);
    if sends != [] {
      NonceErrorsStep(sends, |r.nonces|);
      match sends[0]
      case Confirmed =>
      case Unconfirmed =>
        NonceErrorsBounded(nonce, attempts, sends[1..]);
      case Failed(message, reread) =>
        if Contains(message, NonceTooLow) && reread.Success? && attempts + 1 < MaxNonceRetries {
          NonceErrorsBounded(reread.value, attempts + 1, sends[1..]);
        } else {
          assert sends[1..][..0] == [];
        }
    }
  }

  /** Any other error is rethrown after a single submission. */
  lemma OtherErrorRethrownAtOnce(nonce: int, attempts: nat, sends: seq<SendOutcome>)
    requires attempts < MaxNonceRetries
    requires sends != [] && sends[0].Failed? && !IsNonceTooLow(sends[0])
    ensures Retry(nonce, attempts, sends) == RetryRun(Rethrown(ErrorText(sends[0].message)), [nonce])
  {
  }

  /** After a "nonce too low" error that leaves attempts, the next submission
      uses the nonce read again from the chain. */
  lemma RetryUsesRereadNonce(nonce: int, attempts: nat, sends: seq<SendOutcome>)
    requires attempts + 1 < MaxNonceRetries
    requires |sends| >= 2 && IsNonceTooLow(sends[0]) && sends[0].reread.Success?
    ensures |Retry(nonce, attempts, sends).nonces| >= 2
    ensures Retry(nonce, attempts, sends).nonces[1] == sends[0].reread.value
  {
  }
}
