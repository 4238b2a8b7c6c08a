/** chatblade/printer.py: finding code blocks and JSON in a reply, shortening long
    user turns, and choosing which messages are emitted. Rendering itself (rich panels,
    Markdown, JSON highlighting) is reduced to the text each output carries. */
module Printer {
  import opened Wrappers
  import opened Values
  import opened Strings
  import Chat

  // ---------------------------------------------------------------- code blocks

  const Fence := "```"

  /** The text between a fence and the nearest fence after it holds no fence. */
  lemma BetweenFencesFenceFree(s: string, i: nat, j: nat, k: int)
    requires i + 3 <= j && Find(s, Fence, i + 3) == Some(j)
    ensures !OccursAt(s[i + 3..j], Fence, k)
  {
    var b := s[i + 3..j];
    if 0 <= k && k + 3 <= |b| {
      assert b[k..k + 3] == s[i + 3 + k..i + 3 + k + 3];
      assert !OccursAt(s, Fence, i + 3 + k);
    }
  }

  /** `re.findall(r"```(.*?)```", s, re.DOTALL)` from position `from`: an opening
      fence, the nearest closing fence after it, then the scan resumes after the closer.
      No block contains a fence, since the closer is always the nearest one. */
  function Blocks(s: string, from: nat): (bs: seq<string>)
    ensures forall b, k :: b in bs ==> !OccursAt(b, Fence, k)
    decreases |s| - from
  {
    if from > |s| then []
    else
      match Find(s, Fence, from)
      case None => []
      case Some(i) =>
        match Find(s, Fence, i + 3)
        case None => []
        case Some(j) =>
          var rest := Blocks(s, j + 3);
          assert forall b, k :: b == s[i + 3..j] ==> !OccursAt(b, Fence, k) by {
            forall b, k | b == s[i + 3..j]
              ensures !OccursAt(b, Fence, k)
            {
              BetweenFencesFenceFree(s, i, j, k);
            }
          }
          [s[i + 3..j]] + rest
  }

  /** There is no block at or after `from` exactly when no opening fence there is
      followed by a closing fence. */
  lemma NoBlocksIffNoPair(s: string, from: nat)
    requires from <= |s|
    ensures Blocks(s, from) == [] <==>
      forall i, j :: from <= i && i + 3 <= j && OccursAt(s, Fence, i) ==> !OccursAt(s, Fence, j)
  {
    match Find(s, Fence, from)
    case None =>
    case Some(i) =>
      match Find(s, Fence, i + 3)
      case None =>
        forall i', j' | from <= i' && i' + 3 <= j' && OccursAt(s, Fence, i')
          ensures !OccursAt(s, Fence, j')
        {
          assert i <= i';
        }
      case Some(j) =>
        assert Blocks(s, from) != [];
  }

  /** `k` is the position `sorted(ms, key=len)[-1]` picks: a longest element, and the
      last one among equally long elements (the sort is stable). */
  predicate IsLongestLast(ms: seq<string>, k: int) {
    && 0 <= k < |ms|
    && (forall j :: 0 <= j < |ms| ==> |ms[j]| <= |ms[k]|)
    && (forall j :: k < j < |ms| ==> |ms[j]| < |ms[k]|)
  }

  function LongestLast(ms: seq<string>): (k: nat)
    requires ms != []
    ensures IsLongestLast(ms, k)
  {
    if |ms| == 1 then 0
    else
      var k := LongestLast(ms[..|ms| - 1]);
      if |ms[|ms| - 1]| >= |ms[k]| then |ms| - 1 else k
  }

  /** `extract_block(s)`: the stripped text of the longest block, or None without blocks. */
  function ExtractBlock(s: string): (r: Option<string>)
    ensures r.None? <==> Blocks(s, 0) == []
    ensures r.Some? ==> exists k :: IsLongestLast(Blocks(s, 0), k) && r.value == Strip(Blocks(s, 0)[k])
  {
    var ms := Blocks(s, 0);
    if ms == [] then None else Some(Strip(ms[LongestLast(ms)]))
  }

  /** `contains_block(s)`: there is a block and the longest one is not blank. */
  predicate ContainsBlock(s: string)
    ensures ContainsBlock(s) ==> Blocks(s, 0) != []
    ensures ContainsBlock(s) <==> ExtractBlock(s).Some? && ExtractBlock(s).value != ""
  {
    var b := ExtractBlock(s);
    b.Some? && b.value != ""
  }

  // ---------------------------------------------------------------- JSON

  /** A line whose stripped text starts with `{` or `[`: its first non-blank character
      is one of those. */
  predicate IsJsonStart(line: string)
    ensures IsJsonStart(line) <==>
      var lo := LeadingSpaces(line);
      lo < |line| && (line[lo] == '{' || line[lo] == '[')
  {
    var t := Strip(line);
    t != "" && (t[0] == '{' || t[0] == '[')
  }

  /** The first JSON-starting line at or after `from`. */
  function FirstJsonLine(lines: seq<string>, from: nat): (r: Option<nat>)
    ensures r.Some? ==> from <= r.value < |lines| && IsJsonStart(lines[r.value])
    ensures r.Some? ==> forall j :: from <= j < r.value ==> !IsJsonStart(lines[j])
    ensures r.None? ==> forall j :: from <= j < |lines| ==> !IsJsonStart(lines[j])
    decreases |lines| - from
  {
    if from >= |lines| then None
    else if IsJsonStart(lines[from]) then Some(from)
    else FirstJsonLine(lines, from + 1)
  }

  const NoJson := "No json in string"

  /** `extract_json(s)`: from the first JSON-starting line on, the lines joined by single
      spaces and passed through `normalize`, the parse-and-dump round trip
      (`json.dumps(json.loads(...))`), which gives None where `json.loads` raises. */
  function ExtractJson(s: string, normalize: string -> Option<string>): (r: Result<string, Fault>)
    ensures var lines := SplitLines(s);
      (forall i :: 0 <= i < |lines| ==> !IsJsonStart(lines[i])) <==> r == Failure(ValueError(NoJson))
    ensures var lines := SplitLines(s);
      forall idx :: 0 <= idx < |lines| && IsJsonStart(lines[idx])
                    && (forall j :: 0 <= j < idx ==> !IsJsonStart(lines[j])) ==>
        r == match normalize(Join(lines[idx..], " "))
             case Some(text) => Success(text)
             case None => Failure(JsonDecodeError)
  {
    var lines := SplitLines(s);
    match FirstJsonLine(lines, 0)
    case None => Failure(ValueError(NoJson))
    case Some(idx) =>
      forall other | 0 <= other < |lines| && IsJsonStart(lines[other])
                     && (forall j :: 0 <= j < other ==> !IsJsonStart(lines[j]))
        ensures other == idx
      {
      }
      match normalize(Join(lines[idx..], " "))
      case Some(text) => Success(text)
      case None => Failure(JsonDecodeError)
  }

  /** `contains_json(s)`: `extract_json(s)` raises no ValueError. */
  predicate ContainsJson(s: string, normalize: string -> Option<string>)
    ensures ContainsJson(s, normalize) ==>
      exists i :: 0 <= i < |SplitLines(s)| && IsJsonStart(SplitLines(s)[i])
  {
    ExtractJson(s, normalize).Success?
  }

  // ---------------------------------------------------------------- formatting

  const Shortened := "... **text shortened** ... "

  /** The truncation in `detect_and_format_message`: with a truthy cutoff and a longer
      message, a marker followed by the last `cutoff` characters. */
  function Shorten(msg: string, cutoff: Option<nat>): (r: string)
    ensures cutoff.Some? && cutoff.value > 0 && |msg| > cutoff.value ==>
      && |r| == |Shortened| + cutoff.value
      && r[..|Shortened|] == Shortened
      && r[|r| - cutoff.value..] == msg[|msg| - cutoff.value..]
    ensures !(cutoff.Some? && cutoff.value > 0 && |msg| > cutoff.value) ==> r == msg
  {
    if cutoff.Some? && cutoff.value > 0 && |msg| > cutoff.value
    then Shortened + msg[|msg| - cutoff.value..]
    else msg
  }

  /** How a message body is shown. */
  datatype Printable = JsonView(json: string) | MarkdownView(text: string)

  /** What the printer emits: a plain `print`, a titled panel, or the token table. */
  datatype Output = Text(text: string) | Panel(title: string, body: Printable) | TokenTable(tokens: nat)

  /** `detect_and_format_message(msg, cutoff)`: JSON when there is any, else (possibly
      shortened) Markdown. */
  function DetectAndFormat(msg: string, cutoff: Option<nat>, normalize: string -> Option<string>): (r: Printable)
    ensures r.JsonView? <==> ContainsJson(msg, normalize)
    ensures r.JsonView? ==> ExtractJson(msg, normalize) == Success(r.json)
    ensures r.MarkdownView? ==> r.text == Shorten(msg, cutoff)
  {
    if ContainsJson(msg, normalize) then JsonView(ExtractJson(msg, normalize).value)
    else MarkdownView(Shorten(msg, cutoff))
  }

  /** The cutoff `print_message` chooses: 1000 characters for user turns, none otherwise. */
  function Cutoff(role: string): (c: Option<nat>)
    ensures c.Some? <==> role == "user"
    ensures c.Some? ==> c.value == 1000
  {
    if role == "user" then Some(1000) else None
  }

  /** `print_message(message, args)`: a panel titled with the role. */
  function PrintMessage(m: Chat.Message, normalize: string -> Option<string>): (r: Output)
    ensures r.Panel? && r.title == m.role
    ensures r.body.JsonView? <==> ContainsJson(m.content, normalize)
    ensures r.body.JsonView? ==> ExtractJson(m.content, normalize) == Success(r.body.json)
    ensures r.body.MarkdownView? ==> r.body.text == Shorten(m.content, Cutoff(m.role))
    ensures r.body.MarkdownView? && m.role != "user" ==> r.body.text == m.content
    ensures r.body.MarkdownView? && m.role == "user" ==>
      |r.body.text| <= if |m.content| > 1000 then |Shortened| + 1000 else |m.content|
  {
    Panel(m.role, DetectAndFormat(m.content, Cutoff(m.role), normalize))
  }

  // ---------------------------------------------------------------- selection

  const DefaultRoles: seq<string> := ["user", "assistant"]
  const AllRoles: seq<string> := ["user", "assistant", "system"]

  /** `DEFAULT_ARGS`. */
  const DefaultArgs: Dict := map["roles" := StrList(DefaultRoles)]

  /** The role list an argument holds. */
  function RolesOf(v: Value): seq<string> {
    if v.StrList? then v.items else []
  }

  /** The messages whose role is in `roles`, in their original order. */
  function Selected(messages: seq<Chat.Message>, roles: seq<string>): (r: seq<Chat.Message>)
    ensures |r| <= |messages|
    ensures forall m :: m in r <==> m in messages && m.role in roles
    ensures (forall i :: 0 <= i < |messages| ==> messages[i].role in roles) ==> r == messages
  {
    if messages == [] then []
    else
      var rest := Selected(messages[1..], roles);
      if messages[0].role in roles then [messages[0]] + rest else rest
  }

  /** Each selected message is kept as many times as it occurs, every other one not at all. */
  lemma {:induction false} SelectedCounts(messages: seq<Chat.Message>, roles: seq<string>)
    ensures forall m :: multiset(Selected(messages, roles))[m] == if m.role in roles then multiset(messages)[m] else 0
    decreases |messages|
  {
    if messages != [] {
      SelectedCounts(messages[1..], roles);
      assert messages == [messages[0]] + messages[1..];
    }
  }

  /** Selection keeps the order: selecting from two parts is selecting from each, in turn. */
  lemma {:induction false} SelectedKeepsOrder(a: seq<Chat.Message>, b: seq<Chat.Message>, roles: seq<string>)
    ensures Selected(a + b, roles) == Selected(a, roles) + Selected(b, roles)
    decreases |a|
  {
    if a == [] {
      assert a + b == b;
    } else {
      assert (a + b)[0] == a[0];
      assert (a + b)[1..] == a[1..] + b;
      SelectedKeepsOrder(a[1..], b, roles);
    }
  }

  /** A single message is kept exactly when its role is selected. */
  lemma SelectedOne(m: Chat.Message, roles: seq<string>)
    ensures Selected([m], roles) == if m.role in roles then [m] else []
  {
    assert [m][1..] == [];
  }

  function Panels(ms: seq<Chat.Message>, normalize: string -> Option<string>): (r: seq<Output>)
    ensures |r| == |ms|
    ensures forall i :: 0 <= i < |ms| ==> r[i] == PrintMessage(ms[i], normalize)
  {
    seq(|ms|, i requires 0 <= i < |ms| => PrintMessage(ms[i], normalize))
  }

  /** The text `extract_messages` prints for the last message: its JSON if there is any,
      else its longest code block, else the message itself. */
  function ExtractText(content: string, normalize: string -> Option<string>): (r: string)
    ensures ContainsJson(content, normalize) ==> Success(r) == ExtractJson(content, normalize)
    ensures !ContainsJson(content, normalize) && ContainsBlock(content) ==> Some(r) == ExtractBlock(content)
    ensures !ContainsJson(content, normalize) && !ContainsBlock(content) ==> r == content
  {
    if ContainsJson(content, normalize) then ExtractJson(content, normalize).value
    else if ContainsBlock(content) then ExtractBlock(content).value
    else content
  }

  /** `extract_messages(messages, args)`: one line, taken from the last message only. */
  function ExtractMessages(messages: seq<Chat.Message>, normalize: string -> Option<string>): (r: Result<seq<Output>, Fault>)
    ensures r.Failure? <==> messages == []
    ensures r.Failure? ==> r.error == IndexError
    ensures r.Success? ==> r.value == [Text(ExtractText(messages[|messages| - 1].content, normalize))]
  {
    if messages == [] then Failure(IndexError)
    else Success([Text(ExtractText(messages[|messages| - 1].content, normalize))])
  }

  /** `print_messages(messages, args)`: `raw` prints the last content, `extract` defers to
      `extract_messages`, and otherwise a panel per message whose role is selected. */
  function PrintMessages(messages: seq<Chat.Message>, args: Dict, normalize: string -> Option<string>)
    : (r: Result<seq<Output>, Fault>)
    ensures var a := DefaultArgs + args;
      "raw" in a && Truthy(a["raw"]) ==>
        r == if messages == [] then Failure(IndexError) else Success([Text(messages[|messages| - 1].content)])
    ensures var a := DefaultArgs + args;
      "raw" in a && !Truthy(a["raw"]) && "extract" in a && Truthy(a["extract"]) ==>
        r == ExtractMessages(messages, normalize)
    ensures var a := DefaultArgs + args;
      "raw" in a && !Truthy(a["raw"]) && "extract" in a && !Truthy(a["extract"]) ==>
        r == Success(Panels(Selected(messages, RolesOf(a["roles"])), normalize))
    ensures "raw" !in args ==> r == Failure(KeyError("raw"))
    ensures "raw" in args && !Truthy(args["raw"]) && "extract" !in args ==> r == Failure(KeyError("extract"))
  {
    var a := DefaultArgs + args;
    if "raw" !in a then Failure(KeyError("raw"))
    else if Truthy(a["raw"]) then
      if messages == [] then Failure(IndexError) else Success([Text(messages[|messages| - 1].content)])
    else if "extract" !in a then Failure(KeyError("extract"))
    else if Truthy(a["extract"]) then ExtractMessages(messages, normalize)
    else Success(Panels(Selected(messages, RolesOf(a["roles"])), normalize))
  }

  /** `print_tokens(messages, token_count, args)`: the messages with system turns
      included, then the token count. */
  function PrintTokens(messages: seq<Chat.Message>, tokenCount: nat, args: Dict, normalize: string -> Option<string>)
    : (r: Result<seq<Output>, Fault>)
    ensures var shown := PrintMessages(messages, (DefaultArgs + args)["roles" := StrList(AllRoles)], normalize);
      if shown.Failure? then r == Failure(shown.error) else r == Success(shown.value + [TokenTable(tokenCount)])
  {
    var a := (DefaultArgs + args)["roles" := StrList(AllRoles)];
    match PrintMessages(messages, a, normalize)
    case Failure(e) => Failure(e)
    case Success(out) => Success(out + [TokenTable(tokenCount)])
  }

  /** The options a panel listing runs with: neither `raw` nor `extract` set. */
  predicate PanelMode(args: Dict) {
    "raw" in args && !Truthy(args["raw"]) && "extract" in args && !Truthy(args["extract"])
  }

  /** By default system turns are hidden: every panel is a user or assistant turn, and
      every user or assistant turn gets a panel. */
  lemma DefaultHidesSystem(messages: seq<Chat.Message>, args: Dict, normalize: string -> Option<string>)
    requires PanelMode(args) && "roles" !in args
    ensures PrintMessages(messages, args, normalize).Success?
    ensures forall o :: o in PrintMessages(messages, args, normalize).value ==>
      o.Panel? && o.title in DefaultRoles
    ensures forall m :: m in messages && m.role in DefaultRoles ==>
      PrintMessage(m, normalize) in PrintMessages(messages, args, normalize).value
  {
    var a := DefaultArgs + args;
    assert a["roles"] == StrList(DefaultRoles);
    var sel := Selected(messages, DefaultRoles);
    var out := Panels(sel, normalize);
    forall o | o in out
      ensures o.Panel? && o.title in DefaultRoles
    {
      var i :| 0 <= i < |out| && out[i] == o;
      assert sel[i] in sel;
    }
    forall m | m in messages && m.role in DefaultRoles
      ensures PrintMessage(m, normalize) in out
    {
      var i :| 0 <= i < |sel| && sel[i] == m;
      assert out[i] == PrintMessage(m, normalize);
    }
  }

  /** The token view shows system turns too: with only standard roles, one panel per
      message, in order. */
  lemma TokensShowEverything(messages: seq<Chat.Message>, tokenCount: nat, args: Dict, normalize: string -> Option<string>)
    requires PanelMode(args)
    requires forall i :: 0 <= i < |messages| ==> messages[i].role in AllRoles
    ensures PrintTokens(messages, tokenCount, args, normalize)
         == Success(Panels(messages, normalize) + [TokenTable(tokenCount)])
  {
    var a := (DefaultArgs + args)["roles" := StrList(AllRoles)];
    assert DefaultArgs + a == a;
    assert PanelMode(a) && RolesOf(a["roles"]) == AllRoles;
    assert Selected(messages, AllRoles) == messages;
    assert PrintMessages(messages, a, normalize) == Success(Panels(messages, normalize));
  }
}
