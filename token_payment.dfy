/** The multi-token ledger of token_payment.go (ERC-20 style balances and
    allowances, ERC-1155 style batch transfers, escrow) and the payment system
    that records each freight payment on the chain.

    Go's nested maps `participant -> token -> amount` are flattened into maps
    keyed by (participant, token) and (owner, spender, token); a missing key
    reads as zero, as a missing Go map entry does. Amounts are integers. */
module TokenPayment {
  import opened Wrappers
  import opened Totals
  import opened Records
  import Blockchain

  /** One participant's holding of one token. */
  datatype Holding = Holding(participant: string, token: string)

  /** What `spender` may move out of `owner`'s holding of `token`. */
  datatype Grant = Grant(owner: string, spender: string, token: string)

  /** `m[k] += amount`. */
  function Credit<K(!new)>(m: map<K, int>, k: K, amount: int): (r: map<K, int>)
    ensures Get(r, k) == Get(m, k) + amount
    ensures forall j :: j != k ==> Get(r, j) == Get(m, j)
  {
    m[k := Get(m, k) + amount]
  }

  /** `m[k] -= amount`. */
  function Debit<K(!new)>(m: map<K, int>, k: K, amount: int): (r: map<K, int>)
    ensures Get(r, k) == Get(m, k) - amount
    ensures forall j :: j != k ==> Get(r, j) == Get(m, j)
  {
    m[k := Get(m, k) - amount]
  }

  /** `m[from] -= amount; m[to] += amount`: a transfer, which is the identity
      on every holding when `from == to`. */
  function Move(m: map<Holding, int>, from: Holding, to: Holding, amount: int): (r: map<Holding, int>)
    ensures forall k :: Get(r, k) == Get(m, k) - (if k == from then amount else 0)
                                               + (if k == to then amount else 0)
  {
    Credit(Debit(m, from, amount), to, amount)
  }

  /** The entries of `m` for one token. */
  function Slice(m: map<Holding, int>, token: string): map<Holding, int>
  {
    map k | k in m && k.token == token :: m[k]
  }

  /** How much of `token` the map holds over all participants. */
  ghost function TokenTotal(m: map<Holding, int>, token: string): int
  {
    Sum(Slice(m, token))
  }

  /** Overwriting one holding changes its token's total by the difference and
      no other token's total. */
  lemma TokenTotalUpdate(m: map<Holding, int>, k: Holding, v: int, token: string)
    ensures TokenTotal(m[k := v], token) ==
            TokenTotal(m, token) + (if k.token == token then v - Get(m, k) else 0)
  {
    if k.token == token {
      assert Slice(m[k := v], token) == Slice(m, token)[k := v];
      SumUpdate(Slice(m, token), k, v);
      assert Get(Slice(m, token), k) == Get(m, k);
    } else {
      assert Slice(m[k := v], token) == Slice(m, token);
    }
  }

  /** Crediting a holding adds exactly the amount to its token's total. */
  lemma CreditTotal(m: map<Holding, int>, k: Holding, amount: int, token: string)
    ensures TokenTotal(Credit(m, k, amount), token) ==
            TokenTotal(m, token) + (if k.token == token then amount else 0)
  {
    TokenTotalUpdate(m, k, Get(m, k) + amount, token);
  }

  /** Debiting a holding removes exactly the amount from its token's total. */
  lemma DebitTotal(m: map<Holding, int>, k: Holding, amount: int, token: string)
    ensures TokenTotal(Debit(m, k, amount), token) ==
            TokenTotal(m, token) - (if k.token == token then amount else 0)
  {
    TokenTotalUpdate(m, k, Get(m, k) - amount, token);
  }

  /** A transfer between two holdings of one token leaves every token's total unchanged. */
  lemma MoveConserves(m: map<Holding, int>, from: Holding, to: Holding, amount: int)
    requires from.token == to.token
    ensures forall token :: TokenTotal(Move(m, from, to, amount), token) == TokenTotal(m, token)
  {
    forall token
      ensures TokenTotal(Move(m, from, to, amount), token) == TokenTotal(m, token)
    {
      DebitTotal(m, from, amount, token);
      CreditTotal(Debit(m, from, amount), to, amount, token);
    }
  }

  /** Shifting an amount from one map to another at the same holding (balance to
      escrow, or back) leaves every token's combined total unchanged. */
  lemma ShiftConserves(src: map<Holding, int>, dst: map<Holding, int>, k: Holding, amount: int)
    ensures forall token ::
              TokenTotal(Debit(src, k, amount), token) + TokenTotal(Credit(dst, k, amount), token)
              == TokenTotal(src, token) + TokenTotal(dst, token)
  {
    forall token
      ensures TokenTotal(Debit(src, k, amount), token) + TokenTotal(Credit(dst, k, amount), token)
              == TokenTotal(src, token) + TokenTotal(dst, token)
    {
      DebitTotal(src, k, amount, token);
      CreditTotal(dst, k, amount, token);
    }
  }

  /** With non-negative entries, no single holding exceeds its token's total. */
  lemma HoldingWithinTotal(m: map<Holding, int>, k: Holding)
    requires NonNegative(m)
    ensures 0 <= Get(m, k) <= TokenTotal(m, k.token)
  {
    var s := Slice(m, k.token);
    assert NonNegative(s);
    SumBoundsEntry(s, k);
    assert Get(s, k) == Get(m, k);
  }

  /** Two messages with the same prefix are equal only when their suffixes are. */
  lemma PrefixCancels(p: string, u: string, t: string)
    requires p + u == p + t
    ensures u == t
  {
    assert u == (p + u)[|p|..];
    assert t == (p + t)[|p|..];
  }

  /** The validation of `BatchTransferTokens`: every listed amount is positive
      and covered by the sender's balance of that token. */
  ghost predicate BatchAffordable(balances: map<Holding, int>, from: string, amounts: map<string, int>)
  {
    forall t :: t in amounts ==> 0 < amounts[t] <= Get(balances, Holding(from, t))
  }

  /** The change a batch of the tokens in `done` makes to holding `k`. */
  function BatchDelta(from: string, to: string, amounts: map<string, int>, done: set<string>, k: Holding): int
    requires done <= amounts.Keys
  {
    (if k.participant == to && k.token in done then amounts[k.token] else 0)
    - (if k.participant == from && k.token in done then amounts[k.token] else 0)
  }

  /** `TokenLedger`: balances, escrowed amounts and allowances per participant
      and token. The ghost `minted` records how much of each token was ever
      minted, and `Valid` ties it to the supply held in balances and escrow. */
  class TokenLedger {
    var balances: map<Holding, int>
    var escrowed: map<Holding, int>
    var allowances: map<Grant, int>
    ghost var minted: map<string, int>

    /** All of `token` that exists: held in balances plus held in escrow. */
    ghost function Supply(token: string): int
      reads this
    {
      TokenTotal(balances, token) + TokenTotal(escrowed, token)
    }

    ghost predicate Valid()
      reads this
    {
      && NonNegative(balances)
      && NonNegative(escrowed)
      && NonNegative(allowances)
      && forall token :: Supply(token) == Get(minted, token)
    }

    /** `NewTokenLedger`, with the escrow map allocated as well. */
    constructor ()
      ensures Valid()
      ensures balances == map[] && escrowed == map[] && allowances == map[] && minted == map[]
    {
      balances, escrowed, allowances := map[], map[], map[];
      minted := map[];
      new;
      forall token ensures Supply(token) == Get(minted, token) {
        assert Slice(map[], token) == map[];
      }
    }

    /** `LockTokensInEscrow`: move `amount` from the balance into escrow. */
    method LockTokensInEscrow(participant: string, token: string, amount: int) returns (o: Outcome)
      requires Valid()
      modifies this
      ensures Valid() && minted == old(minted) && allowances == old(allowances)
      ensures o == if amount <= 0 then Fail("amount must be positive")
                   else if Get(old(balances), Holding(participant, token)) < amount
                   then Fail("insufficient balance to lock in escrow")
                   else Pass
      ensures o == Pass ==> (balances == Debit(old(balances), Holding(participant, token), amount)
                        && escrowed == Credit(old(escrowed), Holding(participant, token), amount))
      ensures o != Pass ==> balances == old(balances) && escrowed == old(escrowed)
      ensures forall k :: Get(balances, k) + Get(escrowed, k) == Get(old(balances), k) + Get(old(escrowed), k)
    {
      if amount <= 0 {
        return Fail("amount must be positive");
      }
      var h := Holding(participant, token);
      if Get(balances, h) < amount {
        return Fail("insufficient balance to lock in escrow");
      }
      ShiftConserves(balances, escrowed, h, amount);
      balances, escrowed := Debit(balances, h, amount), Credit(escrowed, h, amount);
      o := Pass;
    }

    /** `ReleaseEscrowTokens`: move `amount` from escrow back into the balance. */
    method ReleaseEscrowTokens(participant: string, token: string, amount: int) returns (o: Outcome)
      requires Valid()
      modifies this
      ensures Valid() && minted == old(minted) && allowances == old(allowances)
      ensures o == if amount <= 0 then Fail("amount must be positive")
                   else if Get(old(escrowed), Holding(participant, token)) < amount
                   then Fail("insufficient escrowed tokens to release")
                   else Pass
      ensures o == Pass ==> (escrowed == Debit(old(escrowed), Holding(participant, token), amount)
                        && balances == Credit(old(balances), Holding(participant, token), amount))
      ensures o != Pass ==> balances == old(balances) && escrowed == old(escrowed)
      ensures forall k :: Get(balances, k) + Get(escrowed, k) == Get(old(balances), k) + Get(old(escrowed), k)
    {
      if amount <= 0 {
        return Fail("amount must be positive");
      }
      var h := Holding(participant, token);
      if Get(escrowed, h) < amount {
        return Fail("insufficient escrowed tokens to release");
      }
      ShiftConserves(escrowed, balances, h, amount);
      escrowed, balances := Debit(escrowed, h, amount), Credit(balances, h, amount);
      o := Pass;
    }

    /** `RefundEscrowTokens`: exactly `ReleaseEscrowTokens`. */
    method RefundEscrowTokens(participant: string, token: string, amount: int) returns (o: Outcome)
      requires Valid()
      modifies this
      ensures Valid() && minted == old(minted) && allowances == old(allowances)
      ensures o == if amount <= 0 then Fail("amount must be positive")
                   else if Get(old(escrowed), Holding(participant, token)) < amount
                   then Fail("insufficient escrowed tokens to release")
                   else Pass
      ensures o == Pass ==> (escrowed == Debit(old(escrowed), Holding(participant, token), amount)
                        && balances == Credit(old(balances), Holding(participant, token), amount))
      ensures o != Pass ==> balances == old(balances) && escrowed == old(escrowed)
    {
      o := ReleaseEscrowTokens(participant, token, amount);
    }

    /** `MintTokens`: create `amount` new units in one holding. */
    method MintTokens(participant: string, token: string, amount: int) returns (o: Outcome)
      requires Valid()
      modifies this
      ensures Valid() && escrowed == old(escrowed) && allowances == old(allowances)
      ensures o == if amount <= 0 then Fail("amount must be positive") else Pass
      ensures o == Pass ==> (balances == Credit(old(balances), Holding(participant, token), amount)
                        && minted == Credit(old(minted), token, amount))
      ensures o != Pass ==> balances == old(balances) && minted == old(minted)
    {
      if amount <= 0 {
        return Fail("amount must be positive");
      }
      var h := Holding(participant, token);
      forall t ensures TokenTotal(Credit(balances, h, amount), t) == TokenTotal(balances, t) + (if token == t then amount else 0) {
        CreditTotal(balances, h, amount, t);
      }
      balances := Credit(balances, h, amount);
      minted := Credit(minted, token, amount);
      o := Pass;
    }

    /** `GetBalance`: zero for a holding never credited. */
    method GetBalance(participant: string, token: string) returns (b: int)
      requires Valid()
      ensures b == Get(balances, Holding(participant, token))
      ensures 0 <= b <= Supply(token)
    {
      b := Get(balances, Holding(participant, token));
      HoldingWithinTotal(balances, Holding(participant, token));
      HoldingWithinTotal(escrowed, Holding(participant, token));
    }

    /** `Approve`: overwrite the allowance; zero revokes it. */
    method Approve(owner: string, spender: string, token: string, amount: int) returns (o: Outcome)
      requires Valid()
      modifies this
      ensures Valid() && balances == old(balances) && escrowed == old(escrowed) && minted == old(minted)
      ensures o == if amount < 0 then Fail("amount cannot be negative") else Pass
      ensures o == Pass ==> allowances == old(allowances)[Grant(owner, spender, token) := amount]
      ensures o != Pass ==> allowances == old(allowances)
    {
      if amount < 0 {
        return Fail("amount cannot be negative");
      }
      allowances := allowances[Grant(owner, spender, token) := amount];
      o := Pass;
    }

    /** `Allowance`: zero for a grant never approved. */
    method Allowance(owner: string, spender: string, token: string) returns (a: int)
      requires Valid()
      ensures a == Get(allowances, Grant(owner, spender, token))
      ensures a >= 0
    {
      a := Get(allowances, Grant(owner, spender, token));
    }

    /** `TransferTokens`: move `amount` of `token` between two participants. */
    method TransferTokens(from: string, to: string, token: string, amount: int) returns (o: Outcome)
      requires Valid()
      modifies this
      ensures Valid() && escrowed == old(escrowed) && allowances == old(allowances) && minted == old(minted)
      ensures o == if amount <= 0 then Fail("amount must be positive")
                   else if Get(old(balances), Holding(from, token)) < amount then Fail("insufficient balance")
                   else Pass
      ensures o == Pass ==> balances == Move(old(balances), Holding(from, token), Holding(to, token), amount)
      ensures o != Pass ==> balances == old(balances)
      ensures Get(balances, Holding(from, token)) + Get(balances, Holding(to, token))
              == Get(old(balances), Holding(from, token)) + Get(old(balances), Holding(to, token))
    {
      if amount <= 0 {
        return Fail("amount must be positive");
      }
      var src, dst := Holding(from, token), Holding(to, token);
      if Get(balances, src) < amount {
        return Fail("insufficient balance");
      }
      MoveConserves(balances, src, dst, amount);
      balances := Move(balances, src, dst, amount);
      o := Pass;
    }

    /** `TransferFrom`: the spender moves the owner's tokens within its allowance.
        The balance is checked before the allowance. */
    method TransferFrom(owner: string, spender: string, to: string, token: string, amount: int) returns (o: Outcome)
      requires Valid()
      modifies this
      ensures Valid() && escrowed == old(escrowed) && minted == old(minted)
      ensures o == if amount <= 0 then Fail("amount must be positive")
                   else if Get(old(balances), Holding(owner, token)) < amount then Fail("insufficient balance")
                   else if Get(old(allowances), Grant(owner, spender, token)) < amount then Fail("allowance exceeded")
                   else Pass
      ensures o == Pass ==> (balances == Move(old(balances), Holding(owner, token), Holding(to, token), amount)
                        && allowances == Debit(old(allowances), Grant(owner, spender, token), amount))
      ensures o != Pass ==> balances == old(balances) && allowances == old(allowances)
    {
      if amount <= 0 {
        return Fail("amount must be positive");
      }
      var src, dst, grant := Holding(owner, token), Holding(to, token), Grant(owner, spender, token);
      if Get(balances, src) < amount {
        return Fail("insufficient balance");
      }
      if Get(allowances, grant) < amount {
        return Fail("allowance exceeded");
      }
      MoveConserves(balances, src, dst, amount);
      balances := Move(balances, src, dst, amount);
      allowances := Debit(allowances, grant, amount);
      o := Pass;
    }

    /** `BatchTransferTokens`: validate every entry, in map order, before moving
        any; then move every listed token from `from` to `to`. */
    method BatchTransferTokens(from: string, to: string, amounts: map<string, int>) returns (o: Outcome)
      requires Valid()
      modifies this
      ensures Valid() && escrowed == old(escrowed) && allowances == old(allowances) && minted == old(minted)
      ensures o == Pass <==> BatchAffordable(old(balances), from, amounts)
      ensures o != Pass ==> balances == old(balances)
      ensures o != Pass ==> o == Fail("amount must be positive")
                            || exists t :: t in amounts && o == Fail("insufficient balance for token " + t)
      ensures o == Fail("amount must be positive") ==> exists t :: t in amounts && amounts[t] <= 0
      ensures forall t :: o == Fail("insufficient balance for token " + t) ==>
                t in amounts && 0 < amounts[t] && Get(old(balances), Holding(from, t)) < amounts[t]
      ensures o == Pass ==> forall k :: Get(balances, k) == Get(old(balances), k) + BatchDelta(from, to, amounts, amounts.Keys, k)
    {
      var pending := amounts.Keys;
      while pending != {}
        invariant pending <= amounts.Keys
        invariant forall t :: t in amounts && t !in pending ==> 0 < amounts[t] <= Get(balances, Holding(from, t))
        decreases pending
      {
        var t :| t in pending;
        if amounts[t] <= 0 {
          return Fail("amount must be positive");
        }
        if Get(balances, Holding(from, t)) < amounts[t] {
          o := Fail("insufficient balance for token " + t);
          forall u | o == Fail("insufficient balance for token " + u)
            ensures u == t
          {
            PrefixCancels("insufficient balance for token ", u, t);
          }
          return;
        }
        pending := pending - {t};
      }
      pending := amounts.Keys;
      while pending != {}
        invariant pending <= amounts.Keys
        invariant Valid() && escrowed == old(escrowed) && allowances == old(allowances) && minted == old(minted)
        invariant forall k :: Get(balances, k) == Get(old(balances), k) + BatchDelta(from, to, amounts, amounts.Keys - pending, k)
        decreases pending
      {
        var t :| t in pending;
        var src, dst := Holding(from, t), Holding(to, t);
        assert Get(balances, src) == Get(old(balances), src) + BatchDelta(from, to, amounts, amounts.Keys - pending, src);
        MoveConserves(balances, src, dst, amounts[t]);
        balances := Move(balances, src, dst, amounts[t]);
        pending := pending - {t};
      }
      o := Pass;
    }
  }

  /** The record `PayFreightBooking` appends to the chain. */
  function PaymentRecord(payer: string, payee: string, token: string, amount: int, booking: string, now: int): string
  {
    Json([("PayerID", Str(payer)), ("PayeeID", Str(payee)), ("TokenID", Str(token)),
          ("Amount", IntToDecimal(amount)), ("BookingID", Str(booking)), ("Timestamp", IntToDecimal(now))])
  }

  /** `TokenPaymentSystem`: a ledger of its own plus the shared chain. */
  class TokenPaymentSystem {
    const tokenLedger: TokenLedger
    const blockchain: Blockchain.Blockchain

    ghost predicate Valid()
      reads this, tokenLedger, blockchain
    {
      tokenLedger.Valid() && blockchain.Valid()
    }

    /** `NewTokenPaymentSystem`. */
    constructor (blockchain: Blockchain.Blockchain)
      requires blockchain.Valid()
      ensures Valid() && this.blockchain == blockchain && fresh(tokenLedger)
      ensures tokenLedger.balances == map[] && tokenLedger.escrowed == map[]
    {
      this.blockchain := blockchain;
      tokenLedger := new TokenLedger();
    }

    /** `PayFreightBooking`: transfer the payment, then record it on the chain.
        A failed append is ignored and the payment still succeeds. */
    method PayFreightBooking(payer: string, payee: string, token: string, amount: int, booking: string, now: int)
      returns (o: Outcome)
      requires Valid()
      modifies tokenLedger, blockchain
      ensures Valid()
      ensures tokenLedger.escrowed == old(tokenLedger.escrowed) && tokenLedger.allowances == old(tokenLedger.allowances)
      ensures o == if amount <= 0 then Fail("amount must be positive")
                   else if Get(old(tokenLedger.balances), Holding(payer, token)) < amount then Fail("insufficient balance")
                   else Pass
      ensures o == Pass ==>
                && tokenLedger.balances == Move(old(tokenLedger.balances), Holding(payer, token), Holding(payee, token), amount)
                && Blockchain.Appended(blockchain.digest, old(blockchain.blocks), blockchain.blocks,
                                       PaymentRecord(payer, payee, token, amount, booking, now), now)
      ensures o != Pass ==> tokenLedger.balances == old(tokenLedger.balances) && blockchain.blocks == old(blockchain.blocks)
    {
      if amount <= 0 {
        return Fail("amount must be positive");
      }
      o := tokenLedger.TransferTokens(payer, payee, token, amount);
      if o != Pass {
        return;
      }
      var _ := blockchain.AddBlock(PaymentRecord(payer, payee, token, amount, booking, now), now);
    }
  }
}
