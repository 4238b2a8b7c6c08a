/** chatblade/chat.py: messages, conversation seeding, the reduction of a streamed
    reply into growing snapshots, token counting and the shaping of a request. */
module Chat {
  import opened Wrappers
  import opened Values
  import Utils

  /** One turn of a conversation (the `Message` named tuple). */
  datatype Message = Message(role: string, content: string)

  /** `init_conversation(user_msg, system_msg)`: an optional system turn, then the user turn. */
  function InitConversation(userMsg: string, systemMsg: Option<string>): (r: seq<Message>)
    ensures 1 <= |r| <= 2
    ensures r[|r| - 1] == Message("user", userMsg)
    ensures |r| == 2 <==> TruthyText(systemMsg)
    ensures |r| == 2 ==> r[0] == Message("system", systemMsg.value)
  {
    var system := if TruthyText(systemMsg) then [Message("system", systemMsg.value)] else [];
    system + [Message("user", userMsg)]
  }

  // ---------------------------------------------------------------- streaming

  /** The `delta` of one streamed choice: a role assignment and/or a content fragment. */
  datatype Delta = Delta(role: Option<string>, content: Option<string>)

  /** One streamed update; only the delta of its first choice is read. */
  datatype Chunk = Chunk(choices: seq<Delta>)

  /** A yielded `Message(role, message)` while streaming; the role is `None` until one arrives. */
  datatype Snapshot = Snapshot(role: Option<string>, content: string)

  /** A delta whose role is truthy: it sets the role and contributes no content. */
  predicate SetsRole(d: Delta) {
    TruthyText(d.role)
  }

  /** The text a delta adds to the running content. */
  function Fragment(d: Delta): string {
    if SetsRole(d) || d.content.None? then "" else d.content.value
  }

  /** One iteration of the `map_from_stream` loop body. */
  function Apply(s: Snapshot, d: Delta): (r: Snapshot)
    ensures r.role == if SetsRole(d) then d.role else s.role
    ensures r.content == s.content + Fragment(d)
  {
    if SetsRole(d) then Snapshot(d.role, s.content)
    else if TruthyText(d.content) then Snapshot(s.role, s.content + d.content.value)
    else s
  }

  /** The running `(role, message)` after all of `ds` has been applied. */
  function Reduce(ds: seq<Delta>): (r: Snapshot)
    ensures r.role.None? || TruthyText(r.role)
  {
    if ds == [] then Snapshot(None, "") else Apply(Reduce(ds[..|ds| - 1]), ds[|ds| - 1])
  }

  /** Everything yielded for `ds`: one snapshot after each delta. */
  function Snapshots(ds: seq<Delta>): (r: seq<Snapshot>)
    ensures |r| == |ds|
  {
    seq(|ds|, i requires 0 <= i < |ds| => Reduce(ds[..i + 1]))
  }

  /** The first-choice deltas the loop can read: those of the updates before the first
      update without choices (where `[...][0]` raises IndexError). */
  function FirstDeltas(chunks: seq<Chunk>): (ds: seq<Delta>)
    ensures |ds| <= |chunks|
    ensures forall j :: 0 <= j < |ds| ==> chunks[j].choices != [] && ds[j] == chunks[j].choices[0]
    ensures |ds| < |chunks| ==> chunks[|ds|].choices == []
  {
    if chunks == [] || chunks[0].choices == [] then []
    else [chunks[0].choices[0]] + FirstDeltas(chunks[1..])
  }

  lemma SnapshotsSnoc(ds: seq<Delta>, d: Delta)
    ensures Snapshots(ds + [d]) == Snapshots(ds) + [Reduce(ds + [d])]
  {
    var l := ds + [d];
    var lhs := Snapshots(l);
    var rhs := Snapshots(ds) + [Reduce(l)];
    forall i | 0 <= i < |l|
      ensures lhs[i] == rhs[i]
    {
      if i < |ds| {
        assert l[..i + 1] == ds[..i + 1];
      } else {
        assert l[..i + 1] == l;
      }
    }
  }

  /** `map_from_stream(openai_gen)`: folds the updates into snapshots. `failed` says the
      stream stopped with IndexError at an update that had no choices. */
  method MapFromStream(chunks: seq<Chunk>) returns (snapshots: seq<Snapshot>, failed: bool)
    ensures snapshots == Snapshots(FirstDeltas(chunks))
    ensures failed <==> exists j :: 0 <= j < |chunks| && chunks[j].choices == []
    ensures !failed ==> |snapshots| == |chunks|
  {
    var role: Option<string> := None;
    var message := "";
    ghost var ds: seq<Delta> := [];
    snapshots := [];
    failed := false;
    var i := 0;
    while i < |chunks|
      invariant 0 <= i <= |chunks| && |ds| == i
      invariant forall j :: 0 <= j < i ==> chunks[j].choices != [] && ds[j] == chunks[j].choices[0]
      invariant Snapshot(role, message) == Reduce(ds)
      invariant snapshots == Snapshots(ds)
    {
      if chunks[i].choices == [] {
        failed := true;
        break;
      }
      var delta := chunks[i].choices[0];
      if TruthyText(delta.role) {
        role := delta.role;
      } else if TruthyText(delta.content) {
        message := message + delta.content.value;
      }
      SnapshotsSnoc(ds, delta);
      ds := ds + [delta];
      assert ds[..|ds| - 1] == ds[..i];
      snapshots := snapshots + [Snapshot(role, message)];
      i := i + 1;
    }
    assert ds == FirstDeltas(chunks);
  }

  /** Concatenation, in order, of the fragments of `ds`. */
  function Fragments(ds: seq<Delta>): string
  {
    if ds == [] then "" else Fragment(ds[0]) + Fragments(ds[1..])
  }

  lemma {:induction false} FragmentsSnoc(ds: seq<Delta>, d: Delta)
    ensures Fragments(ds + [d]) == Fragments(ds) + Fragment(d)
  {
    if ds != [] {
      assert (ds + [d])[1..] == ds[1..] + [d];
      FragmentsSnoc(ds[1..], d);
    }
  }

  /** The final content is the concatenation of the contents of the role-less deltas. */
  lemma {:induction false} ReducedContent(ds: seq<Delta>)
    ensures Reduce(ds).content == Fragments(ds)
  {
    if ds != [] {
      var init := ds[..|ds| - 1];
      ReducedContent(init);
      FragmentsSnoc(init, ds[|ds| - 1]);
      assert init + [ds[|ds| - 1]] == ds;
    }
  }

  /** The role after `ds` is `None` when no delta set one, and otherwise the role of the
      last delta that set one. */
  lemma {:induction false} ReducedRole(ds: seq<Delta>)
    ensures Reduce(ds).role.None? <==> forall j :: 0 <= j < |ds| ==> !SetsRole(ds[j])
    ensures forall j :: 0 <= j < |ds| && SetsRole(ds[j])
                        && (forall k :: j < k < |ds| ==> !SetsRole(ds[k]))
                        ==> Reduce(ds).role == ds[j].role
  {
    if ds != [] {
      var init := ds[..|ds| - 1];
      ReducedRole(init);
      assert forall j :: 0 <= j < |init| ==> init[j] == ds[j];
    }
  }

  /** Reading a prefix of the deltas never gives more content than reading all of them. */
  lemma {:induction false} ReducePrefix(ds: seq<Delta>, n: nat)
    requires n <= |ds|
    ensures Reduce(ds[..n]).content <= Reduce(ds).content
  {
    if n < |ds| {
      var init := ds[..|ds| - 1];
      ReducePrefix(init, n);
      assert init[..n] == ds[..n];
    } else {
      assert ds[..n] == ds;
    }
  }

  /** Each snapshot's content is a prefix of every later snapshot's content. */
  lemma SnapshotsGrow(ds: seq<Delta>, i: nat, j: nat)
    requires i <= j < |ds|
    ensures Snapshots(ds)[i].content <= Snapshots(ds)[j].content
  {
    var upto := ds[..j + 1];
    ReducePrefix(upto, i + 1);
    assert upto[..i + 1] == ds[..i + 1];
  }

  /** A complete (non-streamed) reply. */
  datatype Completion = Completion(choices: seq<Message>)

  /** `map_single(result)`: the message of the first choice. */
  function MapSingle(result: Completion): (r: Result<Message, Fault>)
    ensures r.Success? <==> result.choices != []
    ensures r.Success? ==> r.value == result.choices[0]
    ensures r.Failure? ==> r.error == IndexError
  {
    if result.choices == [] then Failure(IndexError) else Success(result.choices[0])
  }

  // ---------------------------------------------------------------- tokens

  /** Tokens of one message: 4 for its framing, plus its encoded role and content. */
  function MessageTokens(m: Message, encLen: string -> nat): (n: nat)
    ensures n >= 4
  {
    4 + encLen(m.role) + encLen(m.content)
  }

  /** The per-message part of the count; every message costs at least its 4 framing tokens. */
  function TokenSum(ms: seq<Message>, encLen: string -> nat): (n: nat)
    ensures n >= 4 * |ms|
  {
    if ms == [] then 0 else TokenSum(ms[..|ms| - 1], encLen) + MessageTokens(ms[|ms| - 1], encLen)
  }

  lemma {:induction false} TokenSumAppend(a: seq<Message>, b: seq<Message>, encLen: string -> nat)
    ensures TokenSum(a + b, encLen) == TokenSum(a, encLen) + TokenSum(b, encLen)
    decreases |b|
  {
    if b != [] {
      var init := b[..|b| - 1];
      TokenSumAppend(a, init, encLen);
      assert (a + b)[..|a + b| - 1] == a + init;
    } else {
      assert a + b == a;
    }
  }

  /** Integer part of `num_tokens_in_messages`: the sum over the messages, plus 2 when
      the last message is a user turn (the reply is primed). */
  method NumTokensInMessages(messages: seq<Message>, encLen: string -> nat) returns (numTokens: nat)
    requires |messages| > 0
    ensures numTokens == TokenSum(messages, encLen) + (if messages[|messages| - 1].role == "user" then 2 else 0)
    ensures numTokens >= 4 * |messages|
  {
    numTokens := 0;
    var i := 0;
    while i < |messages|
      invariant 0 <= i <= |messages|
      invariant numTokens == TokenSum(messages[..i], encLen)
    {
      var msgTokens := 4;
      msgTokens := msgTokens + encLen(messages[i].role);
      msgTokens := msgTokens + encLen(messages[i].content);
      assert messages[..i + 1][..i] == messages[..i];
      numTokens := numTokens + msgTokens;
      i := i + 1;
    }
    assert messages[..i] == messages;
    if messages[|messages| - 1].role == "user" {
      numTokens := numTokens + 2;
    }
  }

  // ---------------------------------------------------------------- requests

  const DefaultOpenAISettings: Dict := map[
    "model" := Str("gpt-3.5-turbo"),
    "temperature" := Float(0.1),
    "n" := Int(1),
    "stream" := Bool(false)
  ]

  /** `msg._asdict()`. */
  function AsDict(m: Message): (d: map<string, string>)
    ensures d.Keys == {"role", "content"}
    ensures d["role"] == m.role && d["content"] == m.content
  {
    map["role" := m.role, "content" := m.content]
  }

  /** What `client.chat.completions.create` is called with. */
  datatype ChatRequest = ChatRequest(messages: seq<map<string, string>>, settings: Dict)

  /** The request `query_chat_gpt` sends: the defaults overridden by the caller's
      non-None settings, and the messages as dicts. */
  function BuildRequest(messages: seq<Message>, config: Dict): (r: ChatRequest)
    ensures |r.messages| == |messages|
    ensures forall i :: 0 <= i < |messages| ==> r.messages[i] == AsDict(messages[i])
    ensures forall k :: k in r.settings <==> k in DefaultOpenAISettings && (k !in config || config[k] != Null)
    ensures forall k :: k in r.settings ==>
      r.settings[k] == if k in config then config[k] else DefaultOpenAISettings[k]
  {
    ChatRequest(seq(|messages|, i requires 0 <= i < |messages| => AsDict(messages[i])),
                Utils.MergeDicts(DefaultOpenAISettings, config))
  }

  /** The API key and every other non-setting option never reach the request. */
  lemma RequestSettingsOnly(messages: seq<Message>, config: Dict)
    ensures BuildRequest(messages, config).settings.Keys <= {"model", "temperature", "n", "stream"}
    ensures "openai_api_key" !in BuildRequest(messages, config).settings
  {
  }

  /** A None-free config yields exactly the four default settings. */
  lemma RequestHasAllSettings(messages: seq<Message>, config: Dict)
    requires forall k :: k in config ==> config[k] != Null
    ensures BuildRequest(messages, config).settings.Keys == DefaultOpenAISettings.Keys
  {
  }

  /** What the completion endpoint answers: a stream of updates or a single completion. */
  datatype Response = Streamed(chunks: seq<Chunk>) | Single(completion: Completion)

  datatype Reply = StreamReply(snapshots: seq<Snapshot>, failed: bool) | MessageReply(message: Message)

  /** `query_chat_gpt(messages, config)`, with the endpoint as the parameter `complete`. */
  method QueryChatGpt(messages: seq<Message>, config: Dict, complete: ChatRequest -> Response)
    returns (r: Result<Reply, Fault>)
    ensures var response := complete(BuildRequest(messages, config));
      match response
      case Streamed(chunks) =>
        && r.Success? && r.value.StreamReply? && r.value.snapshots == Snapshots(FirstDeltas(chunks))
        && (r.value.failed <==> exists j :: 0 <= j < |chunks| && chunks[j].choices == [])
      case Single(completion) =>
        if completion.choices == [] then r == Failure(IndexError)
        else r == Success(MessageReply(completion.choices[0]))
  {
    var request := BuildRequest(messages, config);
    var response := complete(request);
    match response
    case Streamed(chunks) =>
      var snapshots, failed := MapFromStream(chunks);
      r := Success(StreamReply(snapshots, failed));
    case Single(completion) =>
      var m := MapSingle(completion);
      r := if m.Success? then Success(MessageReply(m.value)) else Failure(m.error);
  }
}
