/** The reducer `sendAPN` attaches to the library's send promise: it turns
    the library's response, a list of sent device tokens and a list of
    failures, into the uniform summary `{method, success, failure, message}`.
    `Summarize` is its specification; `Resume` is the loop the adapter runs. */
module Reducer {
  import opened Wrappers
  import opened Js

  type Token = string

  const Method: string := "apn"

  /** One entry of the library's `failed` list: the device, and either a
      transport-level `error` or the gateway's HTTP `status` and JSON
      `response` body. */
  datatype Failed = Failed(device: Token, error: Value, status: Value, response: Value)

  /** What the library's send resolves to; either list may be missing. */
  datatype Response = Response(sent: Option<seq<Token>>, failed: Option<seq<Failed>>)

  /** One entry of the summary's `message` list. `errorMsg` is `None` when the
      entry has no such property at all (the entries of sent tokens). */
  datatype Entry = Entry(regId: Token, error: Value, errorMsg: Option<Value>)

  datatype Summary = Summary(methodName: string, success: nat, failure: nat, message: seq<Entry>)

  /** `response.sent || []` */
  function SentOf(response: Response): seq<Token> {
    response.sent.GetOr([])
  }

  /** `response.failed || []` */
  function FailedOf(response: Response): seq<Failed> {
    response.failed.GetOr([])
  }

  function SentEntry(token: Token): Entry {
    Entry(token, Null, None)
  }

  function SentEntries(tokens: seq<Token>): (es: seq<Entry>)
    ensures |es| == |tokens|
    ensures forall i :: 0 <= i < |tokens| ==> es[i] == SentEntry(tokens[i])
  {
    seq(|tokens|, i requires 0 <= i < |tokens| => SentEntry(tokens[i]))
  }

  /** A failure the reducer cannot read: it has no truthy transport error and
      its `response` is null or undefined, so reading `response.reason` throws. */
  predicate Unreadable(f: Failed) {
    !Truthy(f.error) && Nullish(f.response)
  }

  /** The entry for one failure, or the TypeError thrown while building it.
      A transport-level failure (truthy `error`) keeps that error; a
      protocol-level one is identified by `reason`, then `status`, and wraps
      that in an Error, or else carries the raw response. Every entry built
      has an `errorMsg` and an error that is not null. */
  function FailedEntry(f: Failed): (r: Result<Entry, Value>)
    ensures r.Failure? <==> Unreadable(f)
    ensures r.Failure? ==> r.error == ReadError(f.response, "reason")
    ensures r.Success? ==> r.value.regId == f.device && r.value.errorMsg.Some? && r.value.error != Null
  {
    if Truthy(f.error) then
      var message := Get(f.error, "message").value;
      Success(Entry(f.device, f.error, Some(Or(message, f.error))))
    else
      match Get(f.response, "reason")
      case Failure(e) => Failure(e)
      case Success(reason) =>
        var msg := Or(reason, f.status);
        Success(Entry(f.device, if Truthy(msg) then NewError(msg) else f.response, Some(msg)))
  }

  /** The entries for a list of failures processed in order, or the error of
      the first failure that cannot be read. */
  function FailedEntries(fs: seq<Failed>): (r: Result<seq<Entry>, Value>)
    ensures r.Success? <==> forall j :: 0 <= j < |fs| ==> !Unreadable(fs[j])
    ensures r.Success? ==> |r.value| == |fs|
    ensures r.Success? ==> forall j :: 0 <= j < |fs| ==> FailedEntry(fs[j]) == Success(r.value[j])
    decreases |fs|
  {
    if fs == [] then Success([])
    else
      var init, last := fs[..|fs| - 1], fs[|fs| - 1];
      match FailedEntries(init)
      case Failure(e) => Failure(e)
      case Success(es) =>
        match FailedEntry(last)
        case Failure(e) => Failure(e)
        case Success(entry) => Success(es + [entry])
  }

  ghost predicate FirstUnreadable(fs: seq<Failed>, j: int)
    requires 0 <= j < |fs|
  {
    Unreadable(fs[j]) && forall k :: 0 <= k < j ==> !Unreadable(fs[k])
  }

  /** The summary the reducer resolves with, or the error it rejects with.
      It resolves exactly when every failure can be read, and then has one
      entry per counted success or failure. */
  function Summarize(response: Response): (r: Result<Summary, Value>)
    ensures r.Success? <==> forall j :: 0 <= j < |FailedOf(response)| ==> !Unreadable(FailedOf(response)[j])
    ensures r.Success? ==> r.value.success + r.value.failure == |r.value.message|
  {
    var sent, failed := SentOf(response), FailedOf(response);
    match FailedEntries(failed)
    case Failure(e) => Failure(e)
    case Success(es) => Success(Summary(Method, |sent|, |failed|, SentEntries(sent) + es))
  }

  /** The reducer as the adapter runs it: two loops that count and push. */
  method Resume(response: Response) returns (r: Result<Summary, Value>)
    ensures r == Summarize(response)
  {
    var success: nat, failure: nat := 0, 0;
    var message: seq<Entry> := [];
    var sent := SentOf(response);
    for i := 0 to |sent|
      invariant success == i
      invariant message == SentEntries(sent[..i])
    {
      success := success + 1;
      message := message + [Entry(sent[i], Null, None)];
    }
    assert sent[..|sent|] == sent;
    var failed := FailedOf(response);
    for j := 0 to |failed|
      invariant failure == j
      invariant FailedEntries(failed[..j]).Success?
      invariant message == SentEntries(sent) + FailedEntries(failed[..j]).value
    {
      assert failed[..j + 1][..j] == failed[..j];
      failure := failure + 1;
      var f := failed[j];
      if Truthy(f.error) {
        // transport-level error
        var m := Get(f.error, "message").value;
        message := message + [Entry(f.device, f.error, Some(Or(m, f.error)))];
      } else {
        // protocol-level error: reading `reason` throws on a nullish response
        var reason := Get(f.response, "reason");
        if reason.Failure? {
          FailedEntriesStopsAt(failed, j);
          return Failure(reason.error);
        }
        var msg := Or(reason.value, f.status);
        message := message + [Entry(f.device, if Truthy(msg) then NewError(msg) else f.response, Some(msg))];
      }
    }
    assert failed[..|failed|] == failed;
    r := Success(Summary(Method, success, failure, message));
  }

  /** A failure list whose items before `j` are readable and whose item `j`
      is not rejects with item `j`'s error, whatever follows it. */
  lemma {:induction false} FailedEntriesStopsAt(fs: seq<Failed>, j: nat)
    requires j < |fs|
    requires FirstUnreadable(fs, j)
    ensures FailedEntries(fs) == Failure(ReadError(fs[j].response, "reason"))
    decreases |fs|
  {
    if j < |fs| - 1 {
      var init := fs[..|fs| - 1];
      assert forall k :: 0 <= k <= j ==> init[k] == fs[k];
      FailedEntriesStopsAt(init, j);
    } else {
      assert forall k :: 0 <= k < j ==> fs[..|fs| - 1][k] == fs[k];
    }
  }

  /** A resolved summary is tagged "apn", counts the sent tokens as
      successes and the failures as failures, and has one entry per count. */
  lemma SummaryCounts(response: Response)
    requires Summarize(response).Success?
    ensures var s := Summarize(response).value;
      && s.methodName == "apn"
      && s.success == |SentOf(response)|
      && s.failure == |FailedOf(response)|
      && s.success + s.failure == |s.message|
  {
  }

  /** The entries are the sent tokens in order, each with a null error and no
      message, followed by the failures in order, each classified by
      `FailedEntry` and carrying its device as `regId`. */
  lemma SummaryOrder(response: Response)
    requires Summarize(response).Success?
    ensures var s, sent, failed := Summarize(response).value, SentOf(response), FailedOf(response);
      && (forall i :: 0 <= i < |sent| ==> s.message[i] == Entry(sent[i], Null, None))
      && (forall j :: 0 <= j < |failed| ==>
            FailedEntry(failed[j]) == Success(s.message[|sent| + j])
            && s.message[|sent| + j].regId == failed[j].device)
  {
    var s, sent, failed := Summarize(response).value, SentOf(response), FailedOf(response);
    var es := FailedEntries(failed).value;
    assert s.message == SentEntries(sent) + es;
    forall j | 0 <= j < |failed|
      ensures FailedEntry(failed[j]) == Success(s.message[|sent| + j])
    {
      assert s.message[|sent| + j] == es[j];
    }
  }

  function RegIds(es: seq<Entry>): (ids: seq<Token>)
    ensures |ids| == |es|
    ensures forall i :: 0 <= i < |es| ==> ids[i] == es[i].regId
  {
    seq(|es|, i requires 0 <= i < |es| => es[i].regId)
  }

  function Devices(fs: seq<Failed>): (ds: seq<Token>)
    ensures |ds| == |fs|
    ensures forall j :: 0 <= j < |fs| ==> ds[j] == fs[j].device
  {
    seq(|fs|, j requires 0 <= j < |fs| => fs[j].device)
  }

  /** No entry is dropped, duplicated or reordered: the `regId`s of the
      summary are the sent tokens followed by the failed devices. */
  lemma SummaryRegIds(response: Response)
    requires Summarize(response).Success?
    ensures RegIds(Summarize(response).value.message) == SentOf(response) + Devices(FailedOf(response))
  {
    var s, sent, failed := Summarize(response).value, SentOf(response), FailedOf(response);
    var es := FailedEntries(failed).value;
    assert s.message == SentEntries(sent) + es;
    var lhs, rhs := RegIds(s.message), sent + Devices(failed);
    forall i | 0 <= i < |lhs| ensures lhs[i] == rhs[i] {
      if i >= |sent| {
        var j := i - |sent|;
        assert s.message[i] == es[j];
        assert FailedEntry(failed[j]) == Success(es[j]);
      }
    }
  }

  /** A caller can tell the outcome of each entry from it alone: the error is
      null, and equally the entry has no `errorMsg`, exactly for the first
      `success` entries, those of the sent tokens. */
  lemma SummaryNullErrorIffSent(response: Response)
    requires Summarize(response).Success?
    ensures var s := Summarize(response).value;
      forall i :: 0 <= i < |s.message| ==>
        && (s.message[i].error == Null <==> i < s.success)
        && (s.message[i].errorMsg.None? <==> i < s.success)
  {
    SummaryOrder(response);
    var s, sent, failed := Summarize(response).value, SentOf(response), FailedOf(response);
    forall i | |sent| <= i < |s.message|
      ensures s.message[i].error != Null && s.message[i].errorMsg.Some?
    {
      assert FailedEntry(failed[i - |sent|]) == Success(s.message[|sent| + (i - |sent|)]);
    }
  }

  /** The reducer rejects exactly when some failure has neither a truthy
      `error` nor a `response` to read, and then with the TypeError of the
      first such failure; otherwise it resolves. */
  lemma SummaryRejection(response: Response)
    ensures var failed := FailedOf(response);
      Summarize(response).Failure? <==> exists j :: 0 <= j < |failed| && Unreadable(failed[j])
    ensures var failed := FailedOf(response);
      forall j :: 0 <= j < |failed| && FirstUnreadable(failed, j) ==>
        Summarize(response) == Failure(ReadError(failed[j].response, "reason"))
  {
    var failed := FailedOf(response);
    forall j | 0 <= j < |failed| && FirstUnreadable(failed, j)
      ensures Summarize(response) == Failure(ReadError(failed[j].response, "reason"))
    {
      FailedEntriesStopsAt(failed, j);
    }
  }

  /** A transport-level failure (truthy `error`) keeps that error object, and
      its message is the error's truthy `message`, else the error itself;
      either way the message is truthy. */
  lemma TransportClassification(f: Failed)
    requires Truthy(f.error)
    ensures var m := Get(f.error, "message").value;
      && FailedEntry(f) == Success(Entry(f.device, f.error, Some(if Truthy(m) then m else f.error)))
      && Truthy(FailedEntry(f).value.errorMsg.value)
  {
  }

  /** A protocol-level failure with a response body is identified by the
      response's `reason` when truthy, else by the HTTP `status`; the error is
      an Error carrying that identity when it is truthy, and the raw response
      body when it is not. */
  lemma ProtocolClassification(f: Failed)
    requires !Truthy(f.error) && !Nullish(f.response)
    ensures var reason := Get(f.response, "reason").value;
      var id := if Truthy(reason) then reason else f.status;
      && FailedEntry(f).Success?
      && FailedEntry(f).value.errorMsg == Some(id)
      && (Truthy(id) ==> FailedEntry(f).value.error == NewError(id))
      && (!Truthy(id) ==> FailedEntry(f).value.error == f.response)
  {
  }

  /** One accepted token, one transport error and one gateway rejection. */
  lemma ThreeTokenExample()
    ensures
      var econnreset := NewError(Str("ECONNRESET"));
      var body := Obj(map["reason" := Str("BadDeviceToken")]);
      var response := Response(
        Some(["A"]),
        Some([Failed("B", econnreset, Undefined, Undefined), Failed("C", Undefined, Num(400), body)]));
      Summarize(response) == Success(Summary("apn", 1, 2, [
        Entry("A", Null, None),
        Entry("B", econnreset, Some(Str("ECONNRESET"))),
        Entry("C", NewError(Str("BadDeviceToken")), Some(Str("BadDeviceToken")))]))
  {
    var econnreset := NewError(Str("ECONNRESET"));
    var body := Obj(map["reason" := Str("BadDeviceToken")]);
    var b, c := Failed("B", econnreset, Undefined, Undefined), Failed("C", Undefined, Num(400), body);
    var eb := Entry("B", econnreset, Some(Str("ECONNRESET")));
    var ec := Entry("C", NewError(Str("BadDeviceToken")), Some(Str("BadDeviceToken")));
    assert FailedEntry(b) == Success(eb);
    assert Get(body, "reason") == Success(Str("BadDeviceToken"));
    assert FailedEntry(c) == Success(ec);
    assert [b][..0] == [];
    assert FailedEntries([]) == Success([]);
    assert FailedEntries([b]) == Success([] + [eb]);
    assert [] + [eb] == [eb];
    var fs := [b, c];
    assert fs[..|fs| - 1] == [b] && fs[|fs| - 1] == c;
    assert FailedEntries(fs[..|fs| - 1]) == Success([eb]);
    assert FailedEntry(fs[|fs| - 1]) == Success(ec);
    assert FailedEntries(fs) == Success([eb] + [ec]);
    assert SentEntries(["A"]) == [Entry("A", Null, None)];
    var response := Response(Some(["A"]), Some(fs));
    assert Summarize(response) == Success(Summary("apn", 1, 2, [Entry("A", Null, None)] + ([eb] + [ec])));
    assert [Entry("A", Null, None)] + ([eb] + [ec]) == [Entry("A", Null, None), eb, ec];
  }
}
