# golang-learn: a verified model of its sequential demos

The repository is a collection of small Go demonstrations. This project models
the ones whose behaviour is sequential and deterministic, and proves what their
code, comments and tests promise:

- **Wallet** (`pointers.dfy`): a `Wallet` object whose `balance` is changed in
  place by `Deposit` and `Withdraw`. `Withdraw` returns `InsufficientFundsError`
  and leaves the balance alone, or subtracts. `Bitcoin.String` renders `"%d BTC"`.
  It is proved to read back as the amount.
- **Channels** (`channels.dfy`): `multiSend` and `blockSend`. The channel is the
  FIFO sequence of values sent, in send order. The two goroutines run as
  "produce all, then consume all". `blockSend`'s producer fills fresh, zeroed
  `[block]int` arrays slot by slot. It breaks after writing `max-1`. The proofs
  cover the batch count `ceil(max/block)`, the start indices, the zero padding,
  the concatenation of the batches and the consumer's sum `max*(max-1)/2`.
- **Sort interface** (`sort_interface.dfy`): `Array`'s `Len`, `Less` and `Swap`,
  and the `reverse` wrapper. The wrapper flips `Less` and inherits `Len` and
  `Swap`. `Swap` writes through the shared backing array.
- **Greeting** (`hello.dfy`), **Fibonacci** (`fibonacci.dfy`), the **sequence
  generator closure** (`closure.dfy`, a class holding the captured counter),
  **append by value and by pointer** (`slices.dfy`), and the **argument
  joining loops** of `src/osargs.go` and `src/forrange.go` (`args.dfy`).

`os.Args` is a parameter. Printing is not modelled; the printed values are
returned instead. Go's `int` is modelled as mathematical `int` (see below).

The source's zero padding is modelled as written. In `blockSend`, a batch whose
stream runs out keeps its trailing slots at `0`, and the whole `[block]int`
array is sent. The model follows the code. It proves that the padding is shorter than
one batch and adds nothing to the sum. It also proves that the padding never
occurs with the program's own constants (`500` divides `50000000`).

The batch loop only ends because `block` is positive. Go accepts a `[0]int`
array type, but with `block = 0` the step `i += block` would never change `i`,
and for a positive `max` the producer would loop forever. The model requires
`block > 0`; the program's own `block` is `500`.

## Model

| member | source | states |
|---|---|---|
| `Pointers.Decimal` | demos/pointers/pointers.go:12-14 | `%d` of an amount is non-empty, starts with `-` exactly for a negative amount, and is otherwise made of decimal digits |
| `Pointers.BitcoinString` | demos/pointers/pointers.go:12-14 | `Bitcoin.String` is the decimal rendering of the amount followed by `" BTC"` |
| `Pointers.Digits` | demos/pointers/pointers.go:12-14 | `%d` of a natural number is a non-empty string of decimal digits with no leading zero |
| `Pointers.DecimalRoundTrip` | demos/pointers/pointers.go:12-14 | reading the `%d` rendering of any amount back gives that amount, so no two amounts render alike |
| `Pointers.BitcoinStringRoundTrip` | demos/pointers/pointers.go:12-14 | `Bitcoin.String` ends in `" BTC"` and what precedes it reads back as the amount |
| `Pointers.Withdrawal` | demos/pointers/pointers.go:24-32 | a withdrawal succeeds (nil error) exactly when amount <= balance, and then the balance drops by the amount and is non-negative; otherwise the error is `InsufficientFundsError` and the balance is unchanged |
| `Pointers.Wallet.constructor` | demos/pointers/pointers.go:16-18 | a wallet literal holds the given balance |
| `Pointers.Wallet.Deposit` | demos/pointers/pointers.go:20-22 | the balance grows by exactly the amount; nothing else changes |
| `Pointers.Wallet.Withdraw` | demos/pointers/pointers.go:24-32 | the new balance and the returned error are those of `Withdrawal` on the old balance |
| `Pointers.Wallet.Balance` | demos/pointers/pointers.go:34-36 | returns the current balance and changes nothing |
| `Pointers.DepositThenWithdraw` | demos/pointers/pointers.go:20-31 | from a non-negative balance, `Deposit(a)` then `Withdraw(a)` succeeds and restores the balance |
| `Pointers.DepositWithdrawRestores` | demos/pointers/pointers.go:20-31 | the same restoration fact stated on balances |
| `Pointers.ApplyOp` | demos/pointers/pointers.go:20-31 | a `Deposit` or `Withdraw` call on a wallet changes its balance exactly as the transition `Step` used for histories says |
| `Pointers.RunStaysNonNegative` | demos/pointers/pointers.go:20-31 | any history of non-negative deposits and arbitrary withdrawals keeps a non-negative balance non-negative |
| `Channels.SumRange` | demos/channels/channels.go:14-16 | the sum of the stream `0..n-1` is `n*(n-1)/2` |
| `Channels.SendStream` | demos/channels/channels.go:21-23 | `multiSend` sends `0, 1, ..., max-1` in order |
| `Channels.SumStream` | demos/channels/channels.go:13-17 | the `multiSend` consumer's count is the sum of everything received |
| `Channels.MultiSend` | demos/channels/channels.go:9-26 | the consumer receives `0..max-1` in send order and counts `max*(max-1)/2` |
| `Channels.Batch` | demos/channels/channels.go:43-48 | every batch array has exactly `block` slots |
| `Channels.BatchesFrom` | demos/channels/channels.go:42-51 | the closed form of the producer loop from start index `i`: no batch exactly when `i >= max`, and every batch a whole `[block]int` array |
| `Channels.Batches` | demos/channels/channels.go:42-51 | the whole batch sequence of `blockSend`, exactly `ceil(max/block)` batches, none for `max <= 0` |
| `Channels.SendBatches` | demos/channels/channels.go:42-51 | the producer loop, with its zeroed arrays and early break, sends exactly the batch sequence `Batches(max, block)` |
| `Channels.SumBatches` | demos/channels/channels.go:32-38 | the `blockSend` consumer's count is the sum of every element of every batch received |
| `Channels.SumAllIsSumOfFlatten` | demos/channels/channels.go:33-37 | summing batch by batch equals summing their concatenation |
| `Channels.BatchContents` | demos/channels/channels.go:42-48 | batch `k` starts at `k*block`; slot `n` holds `k*block+n` while that is below `max`, and `0` after `max-1` was written |
| `Channels.FlattenBatchesFrom` | demos/channels/channels.go:42-51 | the batches concatenate in send order to `0..max-1` followed by zero padding shorter than one batch |
| `Channels.SumAllBatches` | demos/channels/channels.go:32-51 | sum conservation: the `blockSend` count is `max*(max-1)/2`, the padding adding nothing |
| `Channels.FullBatchesWhenDivisible` | demos/channels/channels.go:42-48 | when `block` divides `max` there are `max/block` batches and they concatenate to exactly `0..max-1` |
| `Channels.ProgramConstants` | demos/channels/channels.go:3-7 | with `max = 50000000` and `block = 500` every batch is full, there are 100000 of them, and the count 1249999975000000 fits in a 64-bit int |
| `Channels.BlockSend` | demos/channels/channels.go:28-54 | `blockSend` sends exactly the batch sequence `Batches(max, block)`, that is `ceil(max/block)` arrays of `block` slots, and its consumer counts `max*(max-1)/2` |
| `SortInterface.Len` | main.go:14-16 | `Len` is the length of the slice, with or without `reverse` wrappers |
| `SortInterface.Less` | main.go:18-34 | `Less(i, j)` holds iff `arr[i] < arr[j]` on the array and under an even number of wrappers, and iff `arr[j] < arr[i]` under an odd number |
| `SortInterface.Reverse` | main.go:37-39 | `Reverse` wraps the value once more and keeps its backing array |
| `SortInterface.ReverseFlipsLess` | main.go:27-39 | `reverse.Less(i, j)` is the wrapped `Less(j, i)`; `Len` and the array `Swap` acts on are inherited unchanged |
| `SortInterface.ReverseTwice` | main.go:32-39 | reversing twice restores the original `Less` |
| `SortInterface.LessStrictOrder` | main.go:18-34 | every view's `Less` is irreflexive and transitive |
| `SortInterface.Swapped` | main.go:22-24 | a swap exchanges positions `i` and `j` and keeps the length and every other position |
| `SortInterface.SwapTwice` | main.go:22-24 | swapping twice restores the slice, and `Swap(i, i)` changes nothing |
| `SortInterface.SwapPermutes` | main.go:22-24 | a swap permutes the elements |
| `SortInterface.Swap` | main.go:22-24 | `Swap` changes the shared backing array in place to the swapped contents |
| `SortInterface.MainExample` | main.go:41-46 | for `[1,2,3]`, `arr.Less(0,1)` is true and `Reverse(arr).Less(0,1)` is false |
| `Hello.GreetingPrefix` | demos/hello/hello.go:11-21 | `"Spanish"` gives `"Hola, "`, `"French"` gives `"Bonjour, "`, and exactly every other string gives `"Hello, "` |
| `Hello.Hello` | demos/hello/hello.go:23-28 | a greeting starts with the language's prefix and is longer than it |
| `Hello.HelloShape` | demos/hello/hello.go:23-28 | a greeting is the language's prefix followed by the name, or by `"world"` for an empty name |
| `Hello.HelloInjective` | demos/hello/hello.go:23-28 | two non-empty names give the same greeting in one language only if they are equal |
| `Hello.HelloExamples` | demos/hello/hello_test.go:13-35 | the four expected greetings of the test file |
| `Fibonacci.Fib` | src/fibonacci.go:5-11 | below 2 (negatives included) the value is `n`; from 0 on it is non-negative, and from 2 on at least 1 |
| `Fibonacci.FibStep` | src/fibonacci.go:10 | for `n >= 2` the value is the sum of the two previous values |
| `Fibonacci.FibMonotone` | src/fibonacci.go:5-11 | from 0 on the sequence never decreases |
| `Fibonacci.Printed` | src/fibonacci.go:14-16 | the loop of `main` produces `fibonacci(0..count-1)` in order |
| `Fibonacci.Main10` | src/fibonacci.go:13-17 | `main` prints `0 1 1 2 3 5 8 13 21 34` |
| `Closure.Sequence.constructor` | src/closure.go:5-6 | a fresh generator's counter starts at 0 |
| `Closure.Sequence.Next` | src/closure.go:7-10 | a call increments the captured counter by one and returns the new value |
| `Closure.Calls` | src/closure.go:7-10 | `k` calls return the `k` values after the current counter, in order |
| `Closure.MainExample` | src/closure.go:13-26 | one generator returns 1, 2, 3; a second starts again at 1, 2 and leaves the first at 3 |
| `Slices.MyAppend` | demos/slices/slice3.go:5-9 | the result is the argument plus one element: same prefix, last element `100` |
| `Slices.MyAppendPtr` | demos/slices/slice3.go:11-15 | the caller's slice variable is replaced by itself with `100` appended |
| `Slices.MainExample` | demos/slices/slice3.go:18-29 | `s` stays `[1 1 1]`, `myAppend` gives `[1 1 1 100]`, `myAppendPtr` then gives `[1 1 1 100 100]` |
| `Args.Join` | src/osargs.go:12-16 | the arguments joined by single spaces, with no leading separator: for at least one argument the result starts with the first |
| `Args.JoinIsJoinFromFront` | src/osargs.go:12-16 | the join built as the loops build it equals the first argument followed by " " and each later one |
| `Args.JoinLength` | src/osargs.go:13-16 | for `k >= 1` arguments the result's length is the sum of their lengths plus `k-1` |
| `Args.JoinEndsWithLast` | src/forrange.go:15-16 | no trailing separator: the result ends with the last argument |
| `Args.SplitJoin` | src/osargs.go:13-16 | splitting the result at spaces gives the arguments back when at least one is given and none contains a space |
| `Args.JoinIndexed` | src/osargs.go:12-16 | the index loop yields the arguments after the program name joined by single spaces, and `""` when there are none |
| `Args.JoinRange` | src/forrange.go:13-17 | the range loop over `os.Args[1:]` yields the same join |
| `Args.SameOutput` | src/forrange.go:13-17 | both programs produce the same string for the same arguments, `""` with no argument after the program name |

## Left out

- Goroutines, channel blocking, the buffer capacity `bufsize` and `close`/`done` signalling in demos/channels/channels.go: a sequential model cannot express scheduling; the channel is the FIFO sequence of sent values and the consumer runs after the producer.
- Go's 64-bit wrap-around of `int` and `Bitcoin`: `Wallet`, the channel counts and `fibonacci` use unbounded integers. For the program's channel constants the count is proved to fit in 64 bits.
- `Pointers.Wallet.Deposit`: does not model 64-bit overflow of `balance += amount`, because the balance is an unbounded integer.
- Slice capacity and backing-array sharing in `append` (demos/slices/slice3.go): slices are values here, so only the contents are modelled, not whether `append` reuses the caller's array.
- The `Interface` type of main.go is a closed datatype (`Array` or `reverse` of another value), not an open Go interface: other implementations are not modelled.
- `SortInterface.Less`: requires both indices to be in range, because Go panics with an index-out-of-range error there and the panic is not modelled.
- `Args.JoinRange`: requires at least the program name, because `os.Args[1:]` panics on an empty `os.Args` while the index loop of src/osargs.go prints an empty line there; that panic, the one input on which the two programs differ, is not modelled, and `Args.SameOutput` shares the requirement.
- `SortInterface.Swap`: requires both indices to be in range, for the same reason.
- `Slices.SliceVar.constructor`, `Pointers.Step`, `Pointers.Run`, the parsing definitions of `pointers.dfy` (`DigitChar`, `DigitValue`, `ParseDigits`, `ParseDecimal`, `ParseDigitsOfDigits`), the reference and splitting definitions of `args.dfy` (`JoinFromFront`, `TotalLength`, `LastSpace`, `Split`, `LastSpaceOfJoined`), `SortInterface.Backing` and `SortInterface.Depth`, and the division and sequence helpers of `channels.dfy` are proof aids and have no row.
- Printing with `fmt` and reading `os.Args` are not modelled; the printed values are results and the arguments are a parameter.
- The concurrency demos (goroutine relay, spin ordering, data race, mutex benchmarks, WaitGroup with subprocesses), timers and `select`, floating-point shapes, wrappers over library packages (`container/ring`, `container/list`, `encoding/json`, `sort`, `bufio`, `sync.Pool`, `reflect`, `flag`), OS and network I/O, panic/recover, and the demos of built-in map, range and slice semantics: they are about scheduling, library code or language rules, not logic of their own.
- `integer.Add` (demos/integer): not modelled.
