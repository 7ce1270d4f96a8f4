/** The Bar service of server/main.go: the unary GetInfo handler and the
    client-streaming CollectMessages handler. */
module BarService {
  import opened Int32
  import opened Rpc
  import opened Format

  datatype InfoRequest = InfoRequest(query: string)
  datatype InfoResponse = InfoResponse(info: string)
  datatype MessageResponse = MessageResponse(result: string, count: int32)

  const InfoPrefix: string := "Information about: "

  /** The query an info text is about, if the text has the shape of one. */
  function InfoTopic(info: string): Option<string> {
    if |info| >= |InfoPrefix| && info[..|InfoPrefix|] == InfoPrefix
    then Some(info[|InfoPrefix|..])
    else None
  }

  /** GetInfo never fails, and its text is about exactly the requested query. */
  function GetInfo(req: InfoRequest): (r: Result<InfoResponse>)
    ensures r.Ok?
    ensures |r.value.info| == |InfoPrefix| + |req.query|
    ensures InfoTopic(r.value.info) == Some(req.query)
  {
    Ok(InfoResponse(InfoPrefix + req.query))
  }

  /** Only info texts are read as info texts: a text InfoTopic accepts is the
      one GetInfo produces for the query it extracts. */
  lemma InfoTopicOnlyFromInfo(info: string, query: string)
    requires InfoTopic(info) == Some(query)
    ensures GetInfo(InfoRequest(query)).value.info == info
  {
  }

  /** Different queries get different answers. */
  lemma GetInfoInjective(a: InfoRequest, b: InfoRequest)
    requires GetInfo(a) == GetInfo(b)
    ensures a == b
  {
  }

  // ---------------------------------------------------------------------
  // CollectMessages

  const SummaryPrefix: string := "Collected "
  const SummarySuffix: string := " messages"

  /** The text `fmt.Sprintf("Collected %d messages", k)`. */
  function Summary(k: nat): (s: string)
    ensures |s| == |SummaryPrefix| + |Decimal(k)| + |SummarySuffix|
    ensures s[..|SummaryPrefix|] == SummaryPrefix
    ensures s[|s| - |SummarySuffix|..] == SummarySuffix
    ensures s[|SummaryPrefix|..|s| - |SummarySuffix|] == Decimal(k)
  {
    SummaryPrefix + Decimal(k) + SummarySuffix
  }

  /** The count a summary text reports, if the text has the shape of one. */
  function SummaryCount(s: string): Option<nat> {
    if |s| > |SummaryPrefix| + |SummarySuffix|
       && s[..|SummaryPrefix|] == SummaryPrefix
       && s[|s| - |SummarySuffix|..] == SummarySuffix
       && IsDecimal(s[|SummaryPrefix|..|s| - |SummarySuffix|])
    then Some(ValueOf(s[|SummaryPrefix|..|s| - |SummarySuffix|]))
    else None
  }

  /** The summary reports the count it was built from: reading it back
      gives k, so different counts give different summaries. */
  lemma SummaryRoundTrip(k: nat)
    ensures SummaryCount(Summary(k)) == Some(k)
  {
    DecimalRoundTrip(k);
  }

  /** A stream that eventually yields io.EOF or an error; the handler returns
      only on such a stream. */
  ghost predicate HasTerminal(inbound: seq<RecvResult>) {
    exists k :: 0 <= k < |inbound| && !inbound[k].Msg?
  }

  /** The position of the first io.EOF or error in the stream. */
  ghost function FirstTerminal(inbound: seq<RecvResult>): (k: nat)
    requires HasTerminal(inbound)
    ensures k < |inbound| && !inbound[k].Msg?
    ensures forall j :: 0 <= j < k ==> inbound[j].Msg?
  {
    if !inbound[0].Msg? then 0
    else
      assert HasTerminal(inbound[1..]) by {
        var k :| 0 <= k < |inbound| && !inbound[k].Msg?;
        assert inbound[1..][k - 1] == inbound[k];
      }
      1 + FirstTerminal(inbound[1..])
  }

  /** The stream a client produces by sending the given contents in order. */
  function Msgs(contents: seq<string>): (r: seq<RecvResult>)
    ensures |r| == |contents|
    ensures forall j :: 0 <= j < |r| ==> r[j] == Msg(contents[j])
  {
    if contents == [] then [] else Msgs(contents[..|contents| - 1]) + [Msg(contents[|contents| - 1])]
  }

  /** What one run of CollectMessages does: how many times it called Recv,
      the contents it accumulated, the response it passed to SendAndClose
      (None when it never called it) and the error it returned (None for nil). */
  datatype CollectRun = CollectRun(
    receives: nat,
    messages: seq<string>,
    closedWith: Option<MessageResponse>,
    err: Option<Error>)

  /** CollectMessages reads the stream up to and including its first io.EOF
      or error and nothing beyond, accumulating every message content in
      receive order. On io.EOF it calls SendAndClose once, with the summary
      and the count of messages, and returns what SendAndClose returns; on an
      error it returns that error and never calls SendAndClose. */
  method CollectMessages(inbound: seq<RecvResult>, closeStatus: SendStatus) returns (run: CollectRun)
    requires HasTerminal(inbound)
    ensures var k := FirstTerminal(inbound);
      run.receives == k + 1 && Msgs(run.messages) == inbound[..k]
    ensures var k := FirstTerminal(inbound);
      inbound[k].EOF? ==>
        run.closedWith == Some(MessageResponse(Summary(k), Truncate(k)))
        && run.err == ErrorOf(closeStatus)
        && SummaryCount(run.closedWith.value.result) == Some(|run.messages|)
    ensures var k := FirstTerminal(inbound);
      inbound[k].Err? ==> run.closedWith == None && run.err == Some(inbound[k].error)
  {
    var messages: seq<string> := [];
    var i := 0;
    while true
      invariant i <= FirstTerminal(inbound)
      invariant Msgs(messages) == inbound[..i]
      decreases FirstTerminal(inbound) - i
    {
      var received := inbound[i];
      match received
      case EOF =>
        var response := MessageResponse(Summary(|messages|), Truncate(|messages|));
        SummaryRoundTrip(|messages|);
        return CollectRun(i + 1, messages, Some(response), ErrorOf(closeStatus));
      case Err(e) =>
        return CollectRun(i + 1, messages, None, Some(e));
      case Msg(content) =>
        messages := messages + [content];
        i := i + 1;
    }
  }

  /** A stream of messages followed by io.EOF or an error: the terminal
      result comes right after the messages. */
  lemma {:induction false} MessagesThenTerminal(contents: seq<string>, tail: seq<RecvResult>)
    requires tail != [] && !tail[0].Msg?
    ensures HasTerminal(Msgs(contents) + tail)
    ensures FirstTerminal(Msgs(contents) + tail) == |contents|
    ensures (Msgs(contents) + tail)[..|contents|] == Msgs(contents)
  {
    var s := Msgs(contents) + tail;
    assert !s[|contents|].Msg?;
  }

  /** The response's Count equals the number of messages whenever that number
      fits in an int32; only beyond MaxInt32 does Go's int32 conversion wrap. */
  lemma SummaryMatchesCount(k: nat)
    requires k <= MaxInt32 as int
    ensures Truncate(k) as int == k
    ensures SummaryCount(Summary(k)) == Some(Truncate(k) as int)
  {
    SummaryRoundTrip(k);
  }

  /** The client's call: six messages and then io.EOF give the response
      "Collected 6 messages" with Count 6. */
  lemma ClientCollectsSix()
    ensures var contents := ["Hello", "from", "the", "client", "streaming", "RPC"];
      var inbound := Msgs(contents) + [EOF];
      HasTerminal(inbound) && FirstTerminal(inbound) == 6
      && inbound[..6] == Msgs(contents)
      && Summary(6) == "Collected 6 messages" && Truncate(6) == 6
  {
    var contents := ["Hello", "from", "the", "client", "streaming", "RPC"];
    MessagesThenTerminal(contents, [EOF]);
  }
}
