// Model of demos/pointers/pointers.go: a wallet whose balance is changed in
// place by Deposit and Withdraw, and the decimal rendering of a Bitcoin amount.
module Pointers {

  datatype Option<T> = None | Some(value: T)

  /** A Go `error` value created by `errors.New`. */
  datatype Error = Error(message: string)

  const InsufficientFundsError: Error := Error("cannot withdraw, insufficient funds")

  // ---------------------------------------------------------------------------
  // Bitcoin.String: the amount in decimal, then " BTC"
  // ---------------------------------------------------------------------------

  function DigitChar(d: int): (c: char)
    requires 0 <= d < 10
    ensures '0' <= c <= '9'
  {
    (48 + d) as char
  }

  function DigitValue(c: char): (d: int)
    ensures '0' <= c <= '9' ==> 0 <= d < 10 && DigitChar(d) == c
  {
    c as int - 48
  }

  /** `%d` of a natural number: at least one digit, no leading zero. */
  function Digits(n: nat): (s: string)
    decreases n
    ensures |s| >= 1
    ensures forall k :: 0 <= k < |s| ==> '0' <= s[k] <= '9'
    ensures s[0] == '0' ==> n == 0 && s == "0"
  {
    if n < 10 then [DigitChar(n)] else Digits(n / 10) + [DigitChar(n % 10)]
  }

  /** `%d` of any integer: a minus sign before the digits of a negative value. */
  function Decimal(b: int): (s: string)
    ensures |s| >= 1
    ensures s[0] == '-' <==> b < 0
    ensures b < 0 ==> |s| >= 2
    ensures forall k :: (if b < 0 then 1 else 0) <= k < |s| ==> '0' <= s[k] <= '9'
  {
    if b < 0 then "-" + Digits(-b) else Digits(b)
  }

  /** Reading a string of digits back as a number (the inverse of Digits). */
  function ParseDigits(s: string): int
  {
    if s == [] then 0 else ParseDigits(s[..|s| - 1]) * 10 + DigitValue(s[|s| - 1])
  }

  function ParseDecimal(s: string): int
  {
    if |s| > 0 && s[0] == '-' then -ParseDigits(s[1..]) else ParseDigits(s)
  }

  lemma {:induction false} ParseDigitsOfDigits(n: nat)
    ensures ParseDigits(Digits(n)) == n
    decreases n
  {
    if n >= 10 {
      var s := Digits(n);
      assert s[..|s| - 1] == Digits(n / 10);
      ParseDigitsOfDigits(n / 10);
    }
  }

  /** Decimal is decoded exactly by ParseDecimal: no two amounts render alike. */
  lemma DecimalRoundTrip(b: int)
    ensures ParseDecimal(Decimal(b)) == b
  {
    if b < 0 {
      assert Decimal(b)[1..] == Digits(-b);
      ParseDigitsOfDigits(-b);
    } else {
      ParseDigitsOfDigits(b);
    }
  }

  /** `Bitcoin.String`. */
  function BitcoinString(b: int): (s: string)
    ensures |s| >= 5 && s[..|s| - 4] == Decimal(b) && s[|s| - 4..] == " BTC"
  {
    Decimal(b) + " BTC"
  }

  /** The rendering ends in " BTC" and what precedes it reads back as the amount. */
  lemma BitcoinStringRoundTrip(b: int)
    ensures var s := BitcoinString(b);
      && |s| >= 5
      && s[|s| - 4..] == " BTC"
      && ParseDecimal(s[..|s| - 4]) == b
  {
    var s := BitcoinString(b);
    assert s[..|s| - 4] == Decimal(b);
    DecimalRoundTrip(b);
  }

  // ---------------------------------------------------------------------------
  // Wallet
  // ---------------------------------------------------------------------------

  /** The effect of `Withdraw(amount)` on a balance: the new balance and the
      returned error (None stands for Go's nil). */
  function Withdrawal(balance: int, amount: int): (r: (int, Option<Error>))
    ensures r.1 == None <==> amount <= balance
    ensures r.1 == None ==> r.0 == balance - amount && r.0 >= 0
    ensures r.1 != None ==> r.1 == Some(InsufficientFundsError) && r.0 == balance
  {
    if amount > balance then (balance, Some(InsufficientFundsError))
    else (balance - amount, None)
  }

  class Wallet {
    var balance: int

    /** A wallet literal `Wallet{balance: initial}`; `Wallet{}` is initial 0. */
    constructor (initial: int)
      ensures balance == initial
    {
      balance := initial;
    }

    method Deposit(amount: int)
      modifies this
      ensures balance == old(balance) + amount
    {
      balance := balance + amount;
    }

    method Withdraw(amount: int) returns (err: Option<Error>)
      modifies this
      ensures (balance, err) == Withdrawal(old(balance), amount)
    {
      if amount > balance {
        return Some(InsufficientFundsError);
      }
      balance := balance - amount;
      return None;
    }

    method Balance() returns (b: int)
      ensures b == balance
    {
      b := balance;
    }
  }

  /** Depositing an amount and withdrawing it again succeeds and restores the
      original balance whenever that balance is non-negative. */
  method DepositThenWithdraw(w: Wallet, amount: int) returns (err: Option<Error>)
    requires w.balance >= 0
    modifies w
    ensures err == None && w.balance == old(w.balance)
  {
    w.Deposit(amount);
    err := w.Withdraw(amount);
  }

  /** The same fact on balances alone. */
  lemma DepositWithdrawRestores(balance: int, amount: int)
    requires balance >= 0
    ensures Withdrawal(balance + amount, amount) == (balance, None)
  {
  }

  // A history of calls on one wallet, for the invariant the wallet keeps.
  datatype Op = Deposit(amount: int) | Withdraw(amount: int)

  /** The state transition that the call `op` makes on a wallet's balance
      (ApplyOp below proves that the Wallet methods make exactly this one). */
  function Step(balance: int, op: Op): int
  {
    match op
    case Deposit(a) => balance + a
    case Withdraw(a) => Withdrawal(balance, a).0
  }

  /** Performs one call of a history on a wallet. */
  method ApplyOp(w: Wallet, op: Op)
    modifies w
    ensures w.balance == Step(old(w.balance), op)
  {
    match op
    case Deposit(a) => w.Deposit(a);
    case Withdraw(a) => var _ := w.Withdraw(a);
  }

  function Run(balance: int, ops: seq<Op>): int
    decreases |ops|
  {
    if ops == [] then balance else Run(Step(balance, ops[0]), ops[1..])
  }

  ghost predicate NoNegativeDeposit(ops: seq<Op>)
  {
    forall k :: 0 <= k < |ops| && ops[k].Deposit? ==> ops[k].amount >= 0
  }

  /** A wallet that starts non-negative never goes negative under any history
      of non-negative deposits and arbitrary withdrawals. */
  lemma {:induction false} RunStaysNonNegative(balance: int, ops: seq<Op>)
    requires balance >= 0
    requires NoNegativeDeposit(ops)
    ensures Run(balance, ops) >= 0
    decreases |ops|
  {
    if ops != [] {
      assert ops[0].Deposit? ==> ops[0].amount >= 0;
      assert NoNegativeDeposit(ops[1..]) by {
        forall k | 0 <= k < |ops[1..]| && ops[1..][k].Deposit?
          ensures ops[1..][k].amount >= 0
        {
          assert ops[1..][k] == ops[k + 1];
        }
      }
      RunStaysNonNegative(Step(balance, ops[0]), ops[1..]);
    }
  }
}
