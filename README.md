# Bounded-concurrency pool with a retry driver, in Dafny

This project models the two pieces of logic in `src/pool.js`:

- `repeat(fn, n, token)`, a retry driver. It checks an attempt budget `n` first and a shared
  cancellation flag `token.cancelled` second, before every attempt. It returns the value of the
  first successful call of `fn`, and each failed call recurses with budget `n - 1`.
- `class Pool`, a scheduler that runs at most `max` queued operations at a time. It records each
  settlement in a result slot chosen by the operation's index. It resolves its promise when the
  count of running operations drops to zero.

`retry.dfy` (module `Retry`) models `repeat` as a recursive function. The environment is two
functions of the attempt number `k`, which is also the number of calls made so far: `fn(k)` is
the outcome of the k-th call, and `token(k)` is the flag read just before it. `RepeatFrom(fn,
token, n, k)` is one level of the recursion. `Repeat(fn, n, token)` is the first call. The
result holds the terminal outcome (`Value(v)`, `MaxRetries` for 'max retries reached', or
`Cancelled` for 'cancelled') and the total number of calls of `fn`. The default argument
`token = { cancelled: false }` is the token `_ => false`, which never reads cancelled.

`pool.dfy` (module `Concurrency`) models `Pool` as a class. Its fields `pending`, `next`,
`running` and `resolved` are updated in place, and `results` is an array filled slot by slot.
JavaScript runs every callback to completion, so each method is one atomic transition:

- `Add` is `add`.
- `RunNext` is `runNext`.
- `Run` is `run`'s start-up loop.
- `Done(i, s)` is the `done` callback. It is an environment event that may be called for any
  index in flight.

Ghost state makes the invariants statable. `submitted` holds every added operation, `started`
holds the started operations by index, `inFlight` holds the unsettled indices, and `ran`
records that `Run` was called. `Valid()` is the invariant every method keeps:

- at most `max` operations run at once;
- after `Run`, while the queue is non-empty and the pool is unresolved, all `max` slots are busy;
- every slot below `next` that is not in flight holds exactly one of `res`/`err`;
- the pool can resolve with operations still queued only when `max` is 1;
- after `Run` has started work (something was submitted and `max > 0`), an unresolved pool has
  something in flight.

The code decides completion by `running === 0` alone. With `max = 1` the first settlement
resolves the pool while the rest of the queue never starts. The model reproduces this
(`OneSlotResolvesEarly`). For every other `max`, resolution implies an empty queue and a full
result array (`ResolvedMeansSettled`). Conversely, once work has started, a pool with nothing
in flight has resolved (`SettledMeansResolved`).

The model follows what the code does in four places where the documented intent of the pool
reads differently:

- The intent is to resolve when the queue is empty and nothing is in flight. The code resolves
  on `running === 0` alone.
- The intent is to give an operation its index at submission. The code gives it when the
  operation starts (`this.next++` in `runNext`). The two agree because the queue is FIFO, and
  `IndicesFollowSubmission` proves it.
- The intent is a cap of at least 1. The code does not reject `max = 0`, and the model allows
  it: `Run` then starts nothing and the pool never resolves.
- A result slot is the object `{res, err}`, not a tagged value.

## Model

| member | source | states |
|---|---|---|
| `Retry.RepeatFrom` | src/pool.js:16-24 | the number of calls of `fn` stays within the budget; a cancellation is read with budget left; a value needs at least one call |
| `Retry.Repeat` | src/pool.js:16-24 | the top-level call, with no attempt made yet: `fn` is called at most `n` times, a cancellation stops the driver with budget left, and a value needs at least one call |
| `Retry.DefaultTokenNeverCancels` | src/pool.js:16 | with the default token, which is never set, the result is never 'cancelled', and 'max retries reached' comes only after `n` failed calls |
| `Retry.RepeatSound` | src/pool.js:16-24 | every outcome is explained by the attempts: a value is the last call's success after failed, uncancelled attempts; 'cancelled' was read before the attempt it stopped; 'max retries reached' comes after exactly `n` failed calls |
| `Retry.RepeatExhausts` | src/pool.js:17-23 | if every attempt in the budget starts and fails, `fn` is called exactly `n` times and the result is 'max retries reached' |
| `Retry.RepeatFirstSuccess` | src/pool.js:18-23 | the result is exactly the value of the first successful attempt, after that attempt's number of calls |
| `Retry.RepeatCancels` | src/pool.js:18 | a token read as cancelled before an attempt with budget left ends the sequence with 'cancelled' without that call |
| `Retry.ZeroBudget` | src/pool.js:17-18 | a zero budget gives 'max retries reached' with no call of `fn`, even when the token is already cancelled |
| `Retry.CancelledBeforeStart` | src/pool.js:18 | with budget left and the token cancelled before the first attempt, the result is 'cancelled' with no call |
| `Concurrency.Record` | src/pool.js:69-71 | a settlement's slot holds exactly one of `res`/`err` and reads back as that settlement |
| `Concurrency.Pool.constructor` | src/pool.js:27-32 | a new pool has the given cap, an empty queue, `next = 0` and `running = 0` |
| `Concurrency.Pool.Add` | src/pool.js:34-36 | appends the operation to the back of the queue and changes nothing else |
| `Concurrency.Pool.RunNext` | src/pool.js:62-72 | on an empty queue nothing changes; otherwise the front operation is removed, gets index `next`, `next` and `running` go up by one, and that index is in flight |
| `Concurrency.Pool.Run` | src/pool.js:38-60 | an empty queue starts nothing and leaves the pool unresolved with nothing in flight; otherwise one hole per queued operation, and the first `min(max, queue length)` operations are started with indices 0, 1, … |
| `Concurrency.Pool.Done` | src/pool.js:46-54 | writes only slot `i`, with that settlement; `running` drops by one; at zero the pool resolves without refilling, otherwise the next queued operation is started; `Valid()` is kept, so `running <= max` |
| `Concurrency.IndicesFollowSubmission` | src/pool.js:62-67 | index `i` belongs to the `i`-th submitted operation, and the queue is the not-yet-started suffix of the submissions |
| `Concurrency.ResolvedMeansSettled` | src/pool.js:46-54 | at resolution with `max` other than 1 the queue is empty; with an empty queue every slot of the result array is filled |
| `Concurrency.SettledMeansResolved` | src/pool.js:46-54 | once `Run` has started work and `max > 0`, a pool with nothing in flight has resolved |
| `Concurrency.TwoSlotsThreeJobs` | src/pool.js:44-71 | with two slots and three operations settling out of order, the result array is in submission order |
| `Concurrency.OneSlotResolvesEarly` | src/pool.js:49-50 | with one slot and two operations, the first settlement resolves the pool with the second still queued and its slot a hole |

## Left out

- `delay` (src/pool.js:1-3): timer I/O. When an operation settles is the environment's choice, expressed as a call of `Done`.
- `job` (src/pool.js:5-14): an illustrative workload with logging. Its outcomes are the `fn` function given to `Repeat` and the settlements given to `Done`.
- `main` and the top-level wrapper (src/pool.js:75-90): composition and logging. Its 1000 ms cancellation timer is modelled only as a token that may read differently before each attempt. The token has no cancel operation in the code, so "cancel is idempotent" is not modelled.
- Promise mechanics: `.then`/`.catch` chaining, `resolve`, and the asynchronous recursion of `repeat`. They are replaced by atomic methods and the `resolved` latch. Calling the started operation `fn()` is abstract: the model records only that its index is in flight.
- The error objects: the model keeps which error was thrown (`MaxRetries`, `Cancelled`), not the `Error` object. The wrapped operation's own errors are discarded, as the code discards them.
- Budgets that are not natural numbers: a negative or fractional `n` never reaches `n === 0`. `n` is a `nat`.
- Calling `run` twice, or `add` after `run`: excluded by preconditions. The code gives them no meaning.
- `results` is a variable local to `run`'s promise in the code. The model makes it a field so that `Done` can write it.
- Done: assumes that every queued operation returns a promise and never throws synchronously. In the code the `.catch` at src/pool.js:71 is chained after `.then`, so it also catches a throw from `done` itself. Suppose the refilled `fn()` throws, or returns a non-promise so that `.then` throws a TypeError. Then `done` runs a second time for the same index: it overwrites that slot and decrements `running` twice. The same throw inside `run`'s loop rejects `run`'s promise and stops the loop. `Done`'s precondition that `i` is in flight rules these cases out.
- Record: assumes that a fulfilment value and a rejection reason are never `undefined`. For `undefined` the code writes `{res: undefined, err: undefined}`, so the slot does not hold exactly one of the two and does not read back as the settlement.
- `runNext` tests the shifted element for falsiness. Queued functions are always truthy, so the model tests for an empty queue.
