/** The Foo service of server/main.go: the unary SayHello handler and the
    server-streaming StreamNumbers handler. */
module FooService {
  import opened Int32
  import opened Rpc

  datatype HelloRequest = HelloRequest(name: string)
  datatype HelloResponse = HelloResponse(message: string)
  datatype NumberRequest = NumberRequest(count: int32)

  const GreetingPrefix: string := "Hello, "
  const GreetingSuffix: string := "!"

  /** The name a greeting is addressed to, if the text has the shape of a greeting. */
  function GreetedName(message: string): Option<string> {
    if |message| >= |GreetingPrefix| + |GreetingSuffix|
       && message[..|GreetingPrefix|] == GreetingPrefix
       && message[|message| - |GreetingSuffix|..] == GreetingSuffix
    then Some(message[|GreetingPrefix|..|message| - |GreetingSuffix|])
    else None
  }

  /** SayHello never fails, and its message is the greeting for exactly the
      requested name: reading the name back out of it gives the request's name. */
  function SayHello(req: HelloRequest): (r: Result<HelloResponse>)
    ensures r.Ok?
    ensures |r.value.message| == |req.name| + 8
    ensures GreetedName(r.value.message) == Some(req.name)
  {
    Ok(HelloResponse(GreetingPrefix + req.name + GreetingSuffix))
  }

  /** Only greetings are read as greetings: a text GreetedName accepts is the
      message SayHello produces for the name it extracts. */
  lemma GreetedNameOnlyFromGreetings(message: string, name: string)
    requires GreetedName(message) == Some(name)
    ensures SayHello(HelloRequest(name)).value.message == message
  {
  }

  /** Different names get different greetings. */
  lemma SayHelloInjective(a: HelloRequest, b: HelloRequest)
    requires SayHello(a) == SayHello(b)
    ensures a == b
  {
  }

  // ---------------------------------------------------------------------
  // StreamNumbers
  //
  // The stream's Send is replaced by `send`: send(j) is the outcome of the
  // call made after j earlier calls. The handler returns the numbers it
  // passed to Send, in call order (including the one whose Send failed),
  // and the error it returns (None for nil).

  /** How many numbers the loop means to send for a requested count. */
  function Planned(count: int32): (n: nat)
    ensures n <= MaxInt32 as int
    ensures count > 0 ==> n == count as int
    ensures count <= 0 ==> n == 0
  {
    if count <= 0 then 0 else count as int
  }

  /** The numbers 1, 2, ..., n in increasing order. */
  function Ascending(n: nat): (r: seq<int32>)
    requires n <= MaxInt32 as int
    ensures |r| == n
    ensures forall j :: 0 <= j < n ==> r[j] as int == j + 1
  {
    if n == 0 then [] else Ascending(n - 1) + [n as int32]
  }

  /** The index of the first failing call among the first n calls, or n when
      all n are delivered. */
  function FirstFailure(send: nat -> SendStatus, n: nat): (k: nat)
    ensures k <= n
    ensures k < n ==> send(k).Failed?
    ensures forall j :: 0 <= j < k ==> send(j).Delivered?
  {
    if n == 0 then 0
    else
      var k := FirstFailure(send, n - 1);
      if k < n - 1 then k
      else if send(n - 1).Failed? then n - 1
      else n
  }

  /** StreamNumbers sends 1, 2, ... in order and stops at the first failed
      Send, returning its error; when every Send is delivered it has sent
      exactly 1..Count and returns nil. The counter is unbounded here (see
      CounterAfter for Go's int32 counter, which wraps at MaxInt32). */
  method StreamNumbers(req: NumberRequest, send: nat -> SendStatus)
    returns (attempts: seq<int32>, err: Option<Error>)
    ensures var n := Planned(req.count); var k := FirstFailure(send, n);
      if k < n then attempts == Ascending(k + 1) && err == Some(send(k).error)
      else attempts == Ascending(n) && err == None
  {
    attempts := [];
    var i: int := 1;
    while i <= req.count as int
      invariant 1 <= i <= Planned(req.count) + 1
      invariant attempts == Ascending(i - 1)
      invariant forall j :: 0 <= j < i - 1 ==> send(j).Delivered?
    {
      attempts := attempts + [i as int32];
      var status := send(i - 1);
      if status.Failed? {
        FirstFailureIsFirst(send, Planned(req.count), i - 1);
        return attempts, Some(status.error);
      }
      i := i + 1;
    }
    FirstFailureIsFirst(send, Planned(req.count), Planned(req.count));
    err := None;
  }

  /** FirstFailure finds exactly the first failing call: if the calls before
      m are delivered and call m fails (or m is n), it returns m. */
  lemma FirstFailureIsFirst(send: nat -> SendStatus, n: nat, m: nat)
    requires m <= n
    requires forall j :: 0 <= j < m ==> send(j).Delivered?
    requires m < n ==> send(m).Failed?
    ensures FirstFailure(send, n) == m
  {
  }

  /** A count of zero or less sends nothing and succeeds. */
  lemma NonPositiveCountSendsNothing(count: int32, send: nat -> SendStatus)
    requires count <= 0
    ensures FirstFailure(send, Planned(count)) == 0 && Ascending(Planned(count)) == []
  {
  }

  /** The client's call (Count 5) on a stream whose first five sends are
      delivered: the numbers 1..5 are sent in order and nil is returned. */
  lemma ClientStreamsFive(send: nat -> SendStatus)
    requires forall j :: 0 <= j < 5 ==> send(j).Delivered?
    ensures FirstFailure(send, Planned(5)) == Planned(5)
    ensures Ascending(Planned(5)) == [1, 2, 3, 4, 5]
  {
  }

  // ---------------------------------------------------------------------
  // Go's loop counter: `for i := int32(1); i <= req.Count; i++`

  /** The counter's value after n increments, as Go computes it: it starts
      at 1 and each increment adds one modulo 2^32, so it agrees with n + 1
      modulo 2^32. */
  function CounterAfter(n: nat): (r: int32)
    ensures (r as int - (n + 1)) % TwoTo32 == 0
  {
    if n == 0 then 1 else Increment(CounterAfter(n - 1))
  }

  /** Below the wrap the int32 counter is the unbounded one: after n
      increments it holds n + 1. StreamNumbersAsWritten uses this to make
      the same calls as StreamNumbers for every Count < MaxInt32. */
  lemma CounterCountsUp(n: nat)
    requires n < MaxInt32 as int
    ensures CounterAfter(n) as int == n + 1
  {
  }

  /** With Count == MaxInt32 the guard `i <= Count` holds after any number of
      increments, so without a failing Send the Go loop never ends, and its
      (2^31)-th Send carries MinInt32 instead of a number above MaxInt32. */
  lemma MaxCountNeverStops(n: nat)
    // holds of every int32, which is exactly why the guard never fails
    ensures CounterAfter(n) <= MaxInt32
    ensures CounterAfter(TwoTo31 - 2) == MaxInt32
    ensures CounterAfter(TwoTo31 - 1) == MinInt32
  {
  }

  /** The loop as Go writes it, with an int32 counter that `i++` wraps.
      For every Count below MaxInt32 it makes the same Send calls, with the
      same numbers, and returns the same error as StreamNumbers; at MaxInt32
      it would not end (MaxCountNeverStops). */
  method StreamNumbersAsWritten(req: NumberRequest, send: nat -> SendStatus)
    returns (attempts: seq<int32>, err: Option<Error>)
    requires req.count < MaxInt32
    ensures var n := Planned(req.count); var k := FirstFailure(send, n);
      if k < n then attempts == Ascending(k + 1) && err == Some(send(k).error)
      else attempts == Ascending(n) && err == None
  {
    attempts := [];
    var i: int32 := 1;
    while i <= req.count
      invariant 1 <= i as int <= Planned(req.count) + 1
      invariant i == CounterAfter(i as int - 1)
      invariant attempts == Ascending(i as int - 1)
      invariant forall j :: 0 <= j < i as int - 1 ==> send(j).Delivered?
    {
      attempts := attempts + [i];
      var status := send(i as int - 1);
      if status.Failed? {
        FirstFailureIsFirst(send, Planned(req.count), i as int - 1);
        return attempts, Some(status.error);
      }
      i := Increment(i);
    }
    FirstFailureIsFirst(send, Planned(req.count), Planned(req.count));
    err := None;
  }
}
