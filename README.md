# go-grpc-streams server handlers, modelled in Dafny

The repository runs two gRPC services on one server. `Foo` offers the unary
`SayHello` and the server-streaming `StreamNumbers`. `Bar` offers the unary
`GetInfo` and the client-streaming `CollectMessages`. These four handlers in
`server/main.go` are the only logic the repository writes itself. This project
models them, with each gRPC stream replaced by explicit values:

- A server stream's `Send` is a function `send: nat -> SendStatus`. `send(j)`
  is the outcome (`Delivered` or `Failed(error)`) of the call made after `j`
  earlier calls. `StreamNumbers` returns the numbers it passed to `Send`, in
  call order, and the error it returns (`None` for nil).
- A client stream's `Recv` results are a `seq<RecvResult>`, where
  `RecvResult = Msg(content) | EOF | Err(error)`. The outcome of `SendAndClose`
  is a `SendStatus` parameter. `CollectMessages` returns a `CollectRun` value.
  It holds the number of `Recv` calls, the accumulated contents, the response
  passed to `SendAndClose` (if it was called) and the returned error.
- The unary handlers are functions that return `Ok(response)` or `Fail(error)`.

Files and modules:
- `int32.dfy` (`Int32`): Go's `int32`, the `int32(x)` conversion and the wrapping `i++`.
- `rpc.dfy` (`Rpc`): the stream outcomes and Go's `error` values.
- `format.dfy` (`Format`): the `%d` verb for non-negative numbers, and reading digits back.
- `foo_service.dfy` (`FooService`): `SayHello`, `StreamNumbers` and the int32 loop counter.
- `bar_service.dfy` (`BarService`): `GetInfo` and `CollectMessages`.

Every unary handler has an inverse: a parser that reads the request back out of
the response text. Round-trip lemmas in both directions show the response
determines the request. `StreamNumbers` is proved against `FirstFailure` (the
first failing call) and `Ascending` (the numbers `1..n`). `CollectMessages` is
proved against `FirstTerminal` (the first `EOF` or error in the stream) and
`Msgs` (the stream a client produces by sending given contents).

## Model

| member | source | states |
|---|---|---|
| `FooService.SayHello` | server/main.go:20-25 | Never fails; the message is 8 characters longer than the name, and reading the name back out of it gives exactly the requested name |
| `FooService.GreetedNameOnlyFromGreetings` | server/main.go:23 | Any text accepted as a greeting for `name` is exactly the message `SayHello` produces for `name` |
| `FooService.SayHelloInjective` | server/main.go:23 | Different names get different greetings |
| `FooService.Planned` | server/main.go:30 | The loop plans `Count` sends when `Count > 0` and none when `Count <= 0`; never more than MaxInt32 |
| `FooService.Ascending` | server/main.go:30-31 | The numbers sent form the sequence 1, 2, ..., n: element j is j + 1 |
| `FooService.FirstFailure` | server/main.go:31-33 | The index of the first failing call among the first n, or n: every earlier call was delivered and that one failed |
| `FooService.StreamNumbers` | server/main.go:28-37 | Sends 1, 2, ... in order. If call k is the first to fail, exactly 1..k+1 were attempted and call k's error is returned. If all `Count` calls are delivered, exactly 1..Count were sent and nil is returned |
| `FooService.FirstFailureIsFirst` | server/main.go:31-33 | If calls before m are delivered and call m fails (or m = n), the first failure is m |
| `FooService.NonPositiveCountSendsNothing` | server/main.go:30 | A `Count` of zero or less sends nothing and returns nil |
| `FooService.ClientStreamsFive` | client/main.go:45-60 | The client's request with `Count` 5 sends exactly [1, 2, 3, 4, 5] when those sends are delivered |
| `FooService.CounterAfter` | server/main.go:30 | Go's int32 loop counter (`i := int32(1)`, then `i++`) after n increments: it agrees with n + 1 modulo 2^32. Its exact values are proved in `CounterCountsUp` and `MaxCountNeverStops` |
| `FooService.StreamNumbersAsWritten` | server/main.go:28-37 | The loop with Go's wrapping int32 counter. For every `Count` below MaxInt32 it makes exactly the same Send calls and returns the same error as `StreamNumbers` (same ensures) |
| `FooService.CounterCountsUp` | server/main.go:30 | Go's int32 counter holds n + 1 after n increments while below MaxInt32, so it matches the unbounded counter for every `Count` < MaxInt32 |
| `FooService.MaxCountNeverStops` | server/main.go:30 | The int32 counter never exceeds MaxInt32, so `i <= Count` always holds when `Count` is MaxInt32; it reaches MaxInt32 and then wraps to MinInt32 |
| `Int32.Truncate` | server/main.go:64 | `int32(x)` agrees with x modulo 2^32 and is x itself when x fits in an int32 |
| `Int32.Increment` | server/main.go:30 | `i++` on an int32 adds one below MaxInt32 and wraps MaxInt32 to MinInt32 |
| `Format.Decimal` | server/main.go:60 | `%d` of a non-negative number is a non-empty string of digits with no leading zero, one digit exactly for numbers below 10 |
| `Format.DecimalRoundTrip` | server/main.go:60 | Reading the digits of `%d` back gives the original number |
| `BarService.GetInfo` | server/main.go:45-50 | Never fails; the text is the prefix's length plus the query's, and reading the topic back out of it gives exactly the requested query |
| `BarService.InfoTopicOnlyFromInfo` | server/main.go:48 | Any text accepted as an answer about `query` is exactly the text `GetInfo` produces for `query` |
| `BarService.GetInfoInjective` | server/main.go:48 | Different queries get different answers |
| `BarService.Summary` | server/main.go:60 | `fmt.Sprintf("Collected %d messages", k)`: the text is "Collected ", then the decimal digits of k, then " messages". `SummaryRoundTrip` proves it reads back as k |
| `BarService.SummaryRoundTrip` | server/main.go:60 | The text "Collected k messages" reads back as the count k |
| `BarService.FirstTerminal` | server/main.go:57-69 | The position of the first io.EOF or error: everything before it is a message |
| `BarService.Msgs` | server/main.go:57-71 | The stream a client produces by sending the given contents, one message each, in order |
| `BarService.CollectMessages` | server/main.go:53-73 | Calls Recv up to and including the first EOF or error and never after. It accumulates every message content in receive order. On EOF it calls SendAndClose once, with the summary text and the int32 count, and returns that call's error. On an error it returns that error and never calls SendAndClose |
| `BarService.MessagesThenTerminal` | server/main.go:56-71 | For messages m1..mk followed by EOF or an error, the terminal result is at position k and the accumulated prefix is m1..mk |
| `BarService.SummaryMatchesCount` | server/main.go:60-64 | When the number of messages fits in an int32, the response's `Count` equals it, and so does the count its `Result` text reports |
| `BarService.ClientCollectsSix` | client/main.go:83-96 | The client's six messages followed by EOF give the response "Collected 6 messages" with `Count` 6 |

## Findings

| source | as written | input that shows it | evidently intended | confidence | as-written member | corrected member |
|---|---|---|---|---|---|---|
| server/main.go:30 | The loop counter `i` is an int32, and `i++` wraps from MaxInt32 to MinInt32. So with `Count == MaxInt32` the guard `i <= req.Count` is never false | `Count = 2147483647`, every `Send` delivered: after sending 2147483647 the handler sends -2147483648 and loops forever | Send exactly 1..Count and return nil | not executed; high | `FooService.MaxCountNeverStops` | `FooService.StreamNumbers` |

`FooService.StreamNumbers` uses an unbounded counter. `FooService.StreamNumbersAsWritten` is the loop with Go's int32 counter. For every `Count` below MaxInt32 it is proved against the same ensures as `StreamNumbers`, so the two make the same calls.

## Left out

- `main` in server/main.go: opening the TCP listener, creating the gRPC server, registering the services and serving. This is bootstrap code and library calls.
- client/main.go: it is a driver that dials the server, sets deadlines and calls generated stubs. Its two streaming calls appear only as the lemmas `ClientStreamsFive` and `ClientCollectsSix`.
- The gRPC runtime: multiplexing, half-close, deadlines, cancellation, routing and transport errors. The generated `pb` package and `google.golang.org/grpc` are not part of this model. Their effect on a handler is only the outcomes of `Send`, `Recv` and `SendAndClose`, which are parameters here.
- The `context.Context` arguments of the unary handlers: the handlers never read them.
- Logging (`log.Printf`, `log.Println`): it does not affect any result.
- Concurrency between calls: each handler is modelled as one sequential run.
- The contents of Go `error` values: they are opaque `Error` values, passed through unchanged.
- `fmt.Sprintf` in general: only `%s` on strings (concatenation) and `%d` on non-negative numbers are modelled, which is all the handlers use.
- `BarService.CollectMessages`: requires that `Recv` eventually yields io.EOF or an error. A client that streams forever keeps the Go handler in its loop, and that run is not modelled.
- `FooService.StreamNumbersAsWritten`: requires `Count < MaxInt32`, because at MaxInt32 the Go loop does not end when every Send is delivered (see Findings). `FooService.StreamNumbers` covers every `Count`.
- `FooService.StreamNumbers`: records the numbers passed to `Send`, not the `NumberResponse` objects themselves.
