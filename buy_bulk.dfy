/** The sniper fan-out of moonshot/buyBulk.ts: one purchase attempt per
    registration, in list order, each failure caught so that the next
    registration is still served. */
module BuyBulk {
  import opened Wrappers
  import opened Db

  /** What `buyToken` (services/moonshot/buy.ts, not part of this model) did
      with one wallet: it came back with a receipt, or one of its SDK or RPC
      steps threw. */
  datatype BuyResult = Bought | BuyFailed(error: string)

  /** One iteration of the loop: whose registration, how much, which token,
      the wallet row read for the user at that moment, and what came of it. */
  datatype Attempt = Attempt(userId: int, amount: int, tokenAddress: string,
                             wallet: Option<WalletRow>, result: BuyResult)

  /** What `buyToken(undefined, ...)` throws when the user has no wallet row. */
  const MissingWalletError := "TypeError: Cannot read properties of undefined (reading 'private_key')"

  /** `rows[0]`, which is `undefined` for an empty result. */
  function FirstRow(rows: seq<WalletRow>): (r: Option<WalletRow>)
    ensures r.Some? <==> rows != []
    ensures r.Some? ==> r.value == rows[0]
  {
    if rows == [] then None else Some(rows[0])
  }

  /** `(await getWalletByUserId(userId))[0]`: the user's wallet row, if any. */
  function WalletOf(dir: Directory, userId: int): (r: Option<WalletRow>)
    reads dir
    ensures r.Some? <==> exists w :: w in dir.wallets && w.userId == userId
    ensures r.Some? ==> r.value in dir.wallets && r.value.userId == userId
  {
    var rows := dir.GetWalletByUserId(userId);
    assert rows != [] ==> rows[0] in rows;
    FirstRow(rows)
  }

  /** Every item of `list` got exactly one attempt, in order, with the first
      wallet row of `item.user_id`, `item.amount` and the shared token
      address; an item without a wallet failed on its own. */
  predicate ServedInOrder(dir: Directory, tokenAddress: string, list: seq<SniperRow>,
                          buyToken: (WalletRow, string, int) -> BuyResult, attempts: seq<Attempt>)
    reads dir
  {
    && |attempts| == |list|
    && (forall i :: 0 <= i < |list| ==>
          && attempts[i].userId == list[i].userId
          && attempts[i].amount == list[i].amount
          && attempts[i].tokenAddress == tokenAddress
          && attempts[i].wallet == WalletOf(dir, list[i].userId))
    && (forall i :: 0 <= i < |list| ==>
          attempts[i].result ==
            (if attempts[i].wallet.None? then BuyFailed(MissingWalletError)
             else buyToken(attempts[i].wallet.value, tokenAddress, list[i].amount)))
  }

  /** `buyBulk(tokenAddress, list)`: the attempts serve the list in order,
      and no failure reaches the caller (the method always returns). */
  method BuyBulk(dir: Directory, tokenAddress: string, list: seq<SniperRow>,
                 buyToken: (WalletRow, string, int) -> BuyResult)
    returns (attempts: seq<Attempt>)
    ensures ServedInOrder(dir, tokenAddress, list, buyToken, attempts)
  {
    attempts := [];
    for i := 0 to |list|
      invariant |attempts| == i
      invariant forall k :: 0 <= k < i ==>
        && attempts[k].userId == list[k].userId
        && attempts[k].amount == list[k].amount
        && attempts[k].tokenAddress == tokenAddress
        && attempts[k].wallet == WalletOf(dir, list[k].userId)
      invariant forall k :: 0 <= k < i ==>
        attempts[k].result ==
          (if attempts[k].wallet.None? then BuyFailed(MissingWalletError)
           else buyToken(attempts[k].wallet.value, tokenAddress, list[k].amount))
    {
      var item := list[i];
      var wallet := WalletOf(dir, item.userId);
      var result: BuyResult;
      if wallet.None? {
        result := BuyFailed(MissingWalletError);
      } else {
        result := buyToken(wallet.value, tokenAddress, item.amount);
      }
      attempts := attempts + [Attempt(item.userId, item.amount, tokenAddress, wallet, result)];
    }
  }
}
