/** chatblade/cli.py: shaping the query and options, and the controller loop. The loop
    is a class whose fields are the loop's variables plus the single cache slot; the
    remote completion, the tokenizer, the JSON round trip and the prompt files are
    the collaborators in `Services`. */
module Cli {
  import opened Wrappers
  import opened Values
  import opened Strings
  import Utils
  import Chat
  import Printer
  import Parser

  const CachePath := "~/.cache/chatblade"
  const PromptPath := "~/.config/chatblade/"
  const NoApiKey := "expecting openai API Key"
  const NothingToDo := "no query or option given. nothing to do..."

  // ---------------------------------------------------------------- parse_input

  /** What argparse guarantees of `vars(args)` and the model relies on: the query is a
      word list, the `--openai-api-key` destination is present, and `--chat-gpt`, when
      present, is a string or None (any string: other versions are rejected later). */
  predicate ArgparseShaped(args: Dict) {
    && "query" in args && args["query"].StrList?
    && "openai_api_key" in args
    && ("chat_gpt" in args ==> args["chat_gpt"].Str? || args["chat_gpt"] == Null)
  }

  datatype Parsed = Parsed(query: string, params: Dict)

  /** The model a `--chat-gpt` version names; any other version raises ValueError. */
  function ModelFor(version: string): (r: Result<string, Fault>)
    ensures r.Success? <==> version == "3.5" || version == "4"
    ensures version == "3.5" ==> r == Success("gpt-3.5-turbo")
    ensures version == "4" ==> r == Success("gpt-4")
    ensures r.Failure? ==> r.error == ValueError("Unknown chat GPT version " + version)
  {
    if version == "3.5" then Success("gpt-3.5-turbo")
    else if version == "4" then Success("gpt-4")
    else Failure(ValueError("Unknown chat GPT version " + version))
  }

  /** `parse_input()`, with standard input as `piped` and the environment as `env`.
      A missing key ends the program (SystemExit); an unknown model raises ValueError. */
  function ParseInput(args: Dict, piped: Option<string>, env: map<string, string>): (r: Result<Parsed, Fault>)
    requires ArgparseShaped(args)
    ensures !Truthy(Parser.GetOpenaiKey(args["openai_api_key"], env)) <==> r == Failure(SystemExit)
    ensures r.Success? ==> var p := r.value.params;
      && (forall k :: k in p ==> p[k] != Null)
      && "openai_api_key" in p && p["openai_api_key"] == Parser.GetOpenaiKey(args["openai_api_key"], env)
      && (forall k :: k != "openai_api_key" && k != "model" ==>
            (k in p <==> k in args && args[k] != Null) && (k in p ==> p[k] == args[k]))
    ensures Truthy(Parser.GetOpenaiKey(args["openai_api_key"], env)) && "chat_gpt" in args ==>
      (args["chat_gpt"] == Str("3.5") ==>
         r.Success? && "model" in r.value.params && r.value.params["model"] == Str("gpt-3.5-turbo"))
      && (args["chat_gpt"] == Str("4") ==>
         r.Success? && "model" in r.value.params && r.value.params["model"] == Str("gpt-4"))
      && (args["chat_gpt"].Str? && args["chat_gpt"].s != "3.5" && args["chat_gpt"].s != "4" ==>
            r == Failure(ValueError("Unknown chat GPT version " + args["chat_gpt"].s)))
    ensures r.Success? && ("chat_gpt" !in args || args["chat_gpt"] == Null) ==>
      ("model" in r.value.params <==> "model" in args && args["model"] != Null)
    ensures r.Success? ==>
      r.value.query == (if TruthyText(piped) then piped.value + Parser.PipeSeparator else "") + Join(args["query"].items, " ")
  {
    var key := Parser.GetOpenaiKey(args["openai_api_key"], env);
    if !Truthy(key) then Failure(SystemExit)
    else
      var params := DropNone(args)["openai_api_key" := key];
      var query := (if TruthyText(piped) then piped.value + Parser.PipeSeparator else "") + Join(args["query"].items, " ");
      if "chat_gpt" !in params then Success(Parsed(query, params))
      else
        match ModelFor(params["chat_gpt"].s)
        case Failure(e) => Failure(e)
        case Success(model) => Success(Parsed(query, params["model" := Str(model)]))
  }

  /** Piped input is kept even when there are no words: the query then ends with the
      separator line. */
  lemma PipedWithoutWords(args: Dict, piped: string, env: map<string, string>)
    requires ArgparseShaped(args) && args["query"] == StrList([]) && piped != ""
    requires ParseInput(args, Some(piped), env).Success?
    ensures ParseInput(args, Some(piped), env).value.query == piped + Parser.PipeSeparator
  {
  }

  // ---------------------------------------------------------------- branch selection

  /** The `or` chain reaches `keys[i]`: every key before it is present and falsy. */
  predicate Reaches(d: Dict, keys: seq<string>, i: int) {
    0 <= i < |keys| && forall j :: 0 <= j < i ==> keys[j] in d && !Truthy(d[keys[j]])
  }

  /** `d[k1] or d[k2] or ...`: left to right, stopping at the first truthy value; a
      missing key looked at raises KeyError. */
  function AnyTruthy(d: Dict, keys: seq<string>): (r: Result<bool, Fault>)
    ensures (forall k :: k in keys ==> k in d) ==>
      r == Success(exists i :: 0 <= i < |keys| && Truthy(d[keys[i]]))
    ensures keys != [] && keys[0] in d && Truthy(d[keys[0]]) ==> r == Success(true)
    ensures r.Failure? ==> r.error.KeyError? && r.error.key in keys && r.error.key !in d
  {
    if keys == [] then Success(false)
    else if keys[0] !in d then Failure(KeyError(keys[0]))
    else if Truthy(d[keys[0]]) then Success(true)
    else
      var rest := AnyTruthy(d, keys[1..]);
      assert forall i :: 0 < i < |keys| ==> keys[i] == keys[1..][i - 1];
      rest
  }

  /** Short-circuiting: the chain raises KeyError for the first missing key it reaches,
      and is true exactly when it reaches a truthy value first. */
  lemma {:induction false} AnyTruthyShortCircuits(d: Dict, keys: seq<string>)
    ensures AnyTruthy(d, keys).Failure? <==> exists i :: Reaches(d, keys, i) && keys[i] !in d
    ensures forall i :: Reaches(d, keys, i) && keys[i] !in d ==> AnyTruthy(d, keys) == Failure(KeyError(keys[i]))
    ensures AnyTruthy(d, keys) == Success(true) <==> exists i :: Reaches(d, keys, i) && keys[i] in d && Truthy(d[keys[i]])
    decreases |keys|
  {
    if keys != [] {
      assert Reaches(d, keys, 0);
      if keys[0] in d && !Truthy(d[keys[0]]) {
        var tail := keys[1..];
        AnyTruthyShortCircuits(d, tail);
        forall i | 0 < i < |keys|
          ensures Reaches(d, keys, i) <==> Reaches(d, tail, i - 1)
        {
          assert forall j :: 0 < j < i ==> keys[j] == tail[j - 1];
          if Reaches(d, tail, i - 1) {
            forall j | 0 <= j < i
              ensures keys[j] in d && !Truthy(d[keys[j]])
            {
              if j > 0 {
                assert keys[j] == tail[j - 1];
              }
            }
          }
        }
        assert forall i :: 0 < i < |keys| ==> keys[i] == tail[i - 1];
        if exists i :: Reaches(d, tail, i) && tail[i] !in d {
          var i :| Reaches(d, tail, i) && tail[i] !in d;
          assert Reaches(d, keys, i + 1);
        }
        if exists i :: Reaches(d, tail, i) && tail[i] in d && Truthy(d[tail[i]]) {
          var i :| Reaches(d, tail, i) && tail[i] in d && Truthy(d[tail[i]]);
          assert Reaches(d, keys, i + 1);
        }
      }
    }
  }

  const CacheFlags: seq<string> := ["last", "extract", "raw"]

  /** The prompt's system text; only a string value gives a system turn. */
  function SystemText(v: Value): Option<string> {
    if v.Str? then Some(v.s) else None
  }

  datatype Branch = FromCache | FromPrompt | FromQuery

  /** Where a round's messages and parameters come from. */
  datatype Selection = Selection(branch: Branch, messages: seq<Chat.Message>, params: Dict)

  /** The branch at the top of the `cli()` loop: `last`/`extract`/`raw` continue from the
      cache, else a prompt config seeds a new conversation, else a non-empty query does,
      else there is nothing to do. `prompts` holds the prompt files that exist. */
  function SelectBranch(params: Dict, query: string, cache: Option<seq<Chat.Message>>, prompts: map<string, Dict>)
    : (r: Result<Selection, Fault>)
    ensures r.Success? ==> r.value.messages != [] || r.value.branch == FromCache
    ensures r.Success? && r.value.branch != FromCache ==>
      r.value.messages[|r.value.messages| - 1] == Chat.Message("user", query)
    ensures r.Success? && r.value.branch == FromCache ==>
      cache.Some? && r.value.params == params &&
      r.value.messages == cache.value + (if query != "" then [Chat.Message("user", query)] else [])
    ensures r.Success? && r.value.branch == FromPrompt ==>
      && "prompt_config" in params && params["prompt_config"].Str? && params["prompt_config"].s in prompts
      && var pc := prompts[params["prompt_config"].s];
         && "system" in pc
         && r.value.params == Utils.MergeDicts(params, pc)
         && r.value.messages == Chat.InitConversation(query, SystemText(pc["system"]))
    ensures r.Success? && r.value.branch == FromQuery ==>
      query != "" && r.value.messages == [Chat.Message("user", query)] && r.value.params == params
    ensures AnyTruthy(params, CacheFlags).Failure? ==> r == Failure(AnyTruthy(params, CacheFlags).error)
    ensures AnyTruthy(params, CacheFlags) == Success(true) ==>
      r == if cache.None? then Failure(FileNotFound(CachePath))
           else Success(Selection(FromCache, cache.value + (if query != "" then [Chat.Message("user", query)] else []), params))
    ensures "last" in params && Truthy(params["last"]) ==> AnyTruthy(params, CacheFlags) == Success(true)
    ensures AnyTruthy(params, CacheFlags) == Success(false) && "prompt_config" in params ==>
      var name := params["prompt_config"];
      && (!name.Str? ==> r == Failure(TypeError))
      && (name.Str? && name.s !in prompts ==>
            r == Failure(ValueError("Prompt " + name.s + " not found in " + PromptPath + name.s + ".yaml")))
      && (name.Str? && name.s in prompts && "system" !in prompts[name.s] ==> r == Failure(KeyError("system")))
      && (name.Str? && name.s in prompts && "system" in prompts[name.s] ==> r.Success? && r.value.branch == FromPrompt)
    ensures (forall k :: k in CacheFlags ==> k in params && !Truthy(params[k])) && "prompt_config" !in params ==>
      r == if query != "" then Success(Selection(FromQuery, [Chat.Message("user", query)], params))
           else Failure(SystemExit)
    ensures (forall k :: k in CacheFlags ==> k in params && !Truthy(params[k])) && "prompt_config" in params ==>
      r.Failure? || r.value.branch == FromPrompt
  {
    match AnyTruthy(params, CacheFlags)
    case Failure(e) => Failure(e)
    case Success(fromCache) =>
      if fromCache then
        if cache.None? then Failure(FileNotFound(CachePath))
        else
          var messages := cache.value + (if query != "" then [Chat.Message("user", query)] else []);
          Success(Selection(FromCache, messages, params))
      else if "prompt_config" in params then
        var nameValue := params["prompt_config"];
        if !nameValue.Str? then Failure(TypeError)
        else if nameValue.s !in prompts then
          Failure(ValueError("Prompt " + nameValue.s + " not found in " + PromptPath + nameValue.s + ".yaml"))
        else
          var promptConfig := prompts[nameValue.s];
          if "system" !in promptConfig then Failure(KeyError("system"))
          else
            var messages := Chat.InitConversation(query, SystemText(promptConfig["system"]));
            Success(Selection(FromPrompt, messages, Utils.MergeDicts(params, promptConfig)))
      else if query != "" then Success(Selection(FromQuery, Chat.InitConversation(query, None), params))
      else Failure(SystemExit)
  }

  // ---------------------------------------------------------------- one round

  /** `printer.print_messages` and `printer.print_tokens`, as the loop calls them. */
  datatype Printing = Printing(
    messages: (seq<Chat.Message>, Dict) -> Result<seq<Printer.Output>, Fault>,
    tokens: (seq<Chat.Message>, nat, Dict) -> Result<seq<Printer.Output>, Fault>)

  /** The printer of `Printer`, with `normalize` as the JSON round trip. */
  function StandardPrinting(normalize: string -> Option<string>): Printing {
    Printing((ms, args) => Printer.PrintMessages(ms, args, normalize),
             (ms, n: nat, args) => Printer.PrintTokens(ms, n, args, normalize))
  }

  /** The collaborators the loop calls: the prompt files, the completion endpoint
      (answering one message), the tokenizer's length and the printer. */
  datatype Services = Services(
    prompts: map<string, Dict>,
    remote: Chat.ChatRequest -> Chat.Message,
    encLen: string -> nat,
    show: Printing)

  /** The loop's variables, the cache slot, what was printed and what was sent. */
  datatype CliState = CliState(
    params: Dict,
    query: string,
    messages: seq<Chat.Message>,
    cache: Option<seq<Chat.Message>>,
    transcript: seq<Printer.Output>,
    requests: seq<Chat.ChatRequest>)

  /** How a round ends: the loop goes on (interactive), breaks, or an exception escapes. */
  datatype Status = Continue | Finished | Stopped(fault: Fault)

  datatype StepResult = StepResult(state: CliState, status: Status)

  /** `"tokens" in params and params["tokens"]`: the membership test keeps a missing key
      from raising, unlike the `or` chain of the branch selection. */
  predicate TokensMode(params: Dict)
    ensures "tokens" !in params ==> !TokensMode(params)
    ensures "tokens" in params ==> (TokensMode(params) <==> AnyTruthy(params, ["tokens"]) == Success(true))
  {
    "tokens" in params && Truthy(params["tokens"])
  }

  /** `fetch_and_cache(messages, params)`: one reply appended, and the whole list cached. */
  function Fetched(s: CliState, sv: Services): (r: CliState)
    ensures r.messages == s.messages + [sv.remote(Chat.BuildRequest(s.messages, s.params))]
    ensures r.cache == Some(r.messages)
    ensures r.requests == s.requests + [Chat.BuildRequest(s.messages, s.params)]
    ensures r.params == s.params && r.query == s.query && r.transcript == s.transcript
  {
    var request := Chat.BuildRequest(s.messages, s.params);
    var messages := s.messages + [sv.remote(request)];
    s.(messages := messages, cache := Some(messages), requests := s.requests + [request])
  }

  /** The end of a round: with `interactive`, `last` is switched on and the loop goes on. */
  function Continuation(s: CliState): (r: StepResult)
    ensures r.state.(params := s.params) == s
    ensures r.status == Continue <==> "interactive" in s.params && Truthy(s.params["interactive"])
    ensures r.status == Continue ==> r.state.params == s.params["last" := Bool(true)]
    ensures r.status != Continue ==> r.state.params == s.params
    ensures r.status == Finished <==> "interactive" in s.params && !Truthy(s.params["interactive"])
  {
    match Get(s.params, "interactive")
    case Failure(e) => StepResult(s, Stopped(e))
    case Success(v) =>
      if Truthy(v) then StepResult(s.(params := s.params["last" := Bool(true)]), Continue)
      else StepResult(s, Finished)
  }

  /** Printing the round's output, then the continuation; a printing error escapes. */
  function Printed(s: CliState, shown: Result<seq<Printer.Output>, Fault>): (r: StepResult)
    ensures r.state.(params := s.params, transcript := s.transcript) == s
    ensures r.status == Continue ==>
      "interactive" in s.params && Truthy(s.params["interactive"]) && r.state.params == s.params["last" := Bool(true)]
    ensures r.status != Continue ==> r.state.params == s.params
    ensures shown.Success? ==> r.state.transcript == s.transcript + shown.value
    ensures shown.Failure? ==> r == StepResult(s, Stopped(shown.error))
  {
    match shown
    case Failure(e) => StepResult(s, Stopped(e))
    case Success(out) => Continuation(s.(transcript := s.transcript + out))
  }

  /** Whether the round sends the history to the remote: only outside token mode and
      only when the history ends with a user turn. */
  predicate Fetches(s: CliState)
    requires s.messages != []
    ensures Fetches(s) ==> !TokensMode(s.params)
    ensures Settled(Some(s.messages)) ==> !Fetches(s)
  {
    !TokensMode(s.params) && s.messages[|s.messages| - 1].role == "user"
  }

  /** The round after selection: count tokens, or fetch if needed and print. */
  function Answered(s: CliState, sv: Services): (r: StepResult)
    requires s.messages != []
    ensures var s2 := if Fetches(s) then Fetched(s, sv) else s;
      && r.state.messages == s2.messages && r.state.cache == s2.cache && r.state.requests == s2.requests
      && r.state.query == s.query
    ensures r.status == Continue ==>
      "interactive" in s.params && Truthy(s.params["interactive"]) && r.state.params == s.params["last" := Bool(true)]
    ensures r.status != Continue ==> r.state.params == s.params
  {
    if TokensMode(s.params) then
      var last := s.messages[|s.messages| - 1];
      var numTokens := Chat.TokenSum(s.messages, sv.encLen) + (if last.role == "user" then 2 else 0);
      Printed(s, sv.show.tokens(s.messages, numTokens, s.params))
    else
      var s2 := if Fetches(s) then Fetched(s, sv) else s;
      Printed(s2, sv.show.messages(s2.messages, s2.params))
  }

  /** The round once a branch is selected (or selection has raised). */
  function Resolved(s: CliState, selected: Result<Selection, Fault>, sv: Services): (r: StepResult)
    ensures r.state.query == s.query
    ensures selected.Failure? ==> r.status == Stopped(selected.error) && r.state.(transcript := s.transcript) == s
    ensures selected.Success? && selected.value.messages == [] ==>
      (r.status == Stopped(IndexError) && r.state.cache == s.cache && r.state.requests == s.requests)
    ensures selected.Success? && selected.value.messages != [] ==>
      var s1 := s.(messages := selected.value.messages, params := selected.value.params);
      var s2 := if Fetches(s1) then Fetched(s1, sv) else s1;
      && r.state.messages == s2.messages && r.state.cache == s2.cache && r.state.requests == s2.requests
      && (r.status == Continue ==>
            ("interactive" in selected.value.params && Truthy(selected.value.params["interactive"])
             && r.state.params == selected.value.params["last" := Bool(true)]))
  {
    match selected
    case Failure(e) =>
      var printed := if e == SystemExit then [Printer.Text(NothingToDo)] else [];
      StepResult(s.(transcript := s.transcript + printed), Stopped(e))
    case Success(sel) =>
      var s1 := s.(messages := sel.messages, params := sel.params);
      if sel.messages == [] then StepResult(s1, Stopped(IndexError))
      else Answered(s1, sv)
  }

  /** One pass through the body of the `while True` loop in `cli()`: on a failed selection
      the exception escapes (with the notice printed for SystemExit); an empty history is
      the IndexError of `messages[-1]`; otherwise the round is answered. */
  function Step(s: CliState, sv: Services): (r: StepResult)
    ensures r.state.query == s.query
    ensures var sel := SelectBranch(s.params, s.query, s.cache, sv.prompts);
      sel.Failure? ==> r.status == Stopped(sel.error) && r.state.(transcript := s.transcript) == s
    ensures var sel := SelectBranch(s.params, s.query, s.cache, sv.prompts);
      sel.Success? && sel.value.messages == [] ==>
        (r.status == Stopped(IndexError) && r.state.cache == s.cache && r.state.requests == s.requests)
    ensures var sel := SelectBranch(s.params, s.query, s.cache, sv.prompts);
      sel.Success? && sel.value.messages != [] ==>
        var s1 := s.(messages := sel.value.messages, params := sel.value.params);
        var s2 := if Fetches(s1) then Fetched(s1, sv) else s1;
        && r.state.messages == s2.messages && r.state.cache == s2.cache && r.state.requests == s2.requests
        && (r.status == Continue ==>
              ("interactive" in sel.value.params && Truthy(sel.value.params["interactive"])
               && r.state.params == sel.value.params["last" := Bool(true)]))
  {
    Resolved(s, SelectBranch(s.params, s.query, s.cache, sv.prompts), sv)
  }

  /** Token mode never calls the remote and never writes the cache. */
  lemma TokensModeIsOffline(s: CliState, sv: Services)
    requires SelectBranch(s.params, s.query, s.cache, sv.prompts).Success?
    requires TokensMode(SelectBranch(s.params, s.query, s.cache, sv.prompts).value.params)
    ensures Step(s, sv).state.requests == s.requests
    ensures Step(s, sv).state.cache == s.cache
  {
  }

  /** The remote is called at most once per round, and only when the selected history
      ends with a user turn; the reply is appended and the whole history cached. */
  lemma FetchOnlyAfterUserTurn(s: CliState, sv: Services)
    ensures var r := Step(s, sv).state;
      r.requests == s.requests || |r.requests| == |s.requests| + 1
    ensures var r := Step(s, sv).state;
      r.requests != s.requests ==>
        var sel := SelectBranch(s.params, s.query, s.cache, sv.prompts);
        && sel.Success? && !TokensMode(sel.value.params)
        && sel.value.messages != [] && sel.value.messages[|sel.value.messages| - 1].role == "user"
        && r.requests == s.requests + [Chat.BuildRequest(sel.value.messages, sel.value.params)]
        && r.messages == sel.value.messages + [sv.remote(Chat.BuildRequest(sel.value.messages, sel.value.params))]
        && r.cache == Some(r.messages)
    ensures var r := Step(s, sv).state;
      r.requests == s.requests ==> r.cache == s.cache
  {
  }

  /** A round that continues has switched `last` on, so the next round, whatever its
      query, resumes from the cache. */
  lemma InteractiveResumesFromCache(s: CliState, sv: Services, nextQuery: string)
    requires Step(s, sv).status == Continue
    ensures var r := Step(s, sv).state;
      SelectBranch(r.params, nextQuery, r.cache, sv.prompts) ==
        if r.cache.None? then Failure(FileNotFound(CachePath))
        else Success(Selection(FromCache,
                               r.cache.value + (if nextQuery != "" then [Chat.Message("user", nextQuery)] else []),
                               r.params))
  {
    var r := Step(s, sv).state;
    assert "last" in r.params && r.params["last"] == Bool(true);
  }

  /** No two user turns in a row. */
  predicate Alternating(ms: seq<Chat.Message>) {
    forall i :: 0 <= i < |ms| - 1 ==> !(ms[i].role == "user" && ms[i + 1].role == "user")
  }

  /** A cached history is settled: alternating and not waiting for a reply. */
  predicate Settled(cache: Option<seq<Chat.Message>>) {
    cache.None? || (Alternating(cache.value) && (cache.value != [] ==> cache.value[|cache.value| - 1].role != "user"))
  }

  /** A selected history alternates when the cache it may extend is settled. */
  lemma SelectionAlternates(s: CliState, sv: Services)
    requires Settled(s.cache)
    requires SelectBranch(s.params, s.query, s.cache, sv.prompts).Success?
    ensures Alternating(SelectBranch(s.params, s.query, s.cache, sv.prompts).value.messages)
  {
    var sel := SelectBranch(s.params, s.query, s.cache, sv.prompts).value;
    var ms := sel.messages;
    if sel.branch == FromCache {
      var c := s.cache.value;
      forall i | 0 <= i < |ms| - 1
        ensures !(ms[i].role == "user" && ms[i + 1].role == "user")
      {
        if i < |c| - 1 {
          assert ms[i] == c[i] && ms[i + 1] == c[i + 1];
        }
      }
    }
  }

  /** Answering an alternating history with a non-user turn settles it. */
  lemma ReplySettles(ms: seq<Chat.Message>, reply: Chat.Message)
    requires Alternating(ms) && reply.role != "user"
    ensures Settled(Some(ms + [reply]))
  {
    var after := ms + [reply];
    forall i | 0 <= i < |after| - 1
      ensures !(after[i].role == "user" && after[i + 1].role == "user")
    {
      if i < |ms| - 1 {
        assert after[i] == ms[i] && after[i + 1] == ms[i + 1];
      }
    }
  }

  /** As long as the remote never answers as the user, every cached history alternates:
      a user turn is only appended to a settled history and is answered before caching. */
  lemma CacheStaysSettled(s: CliState, sv: Services)
    requires Settled(s.cache)
    requires forall request :: sv.remote(request).role != "user"
    ensures Settled(Step(s, sv).state.cache)
  {
    var sel := SelectBranch(s.params, s.query, s.cache, sv.prompts);
    if sel.Success? && sel.value.messages != [] {
      var s1 := s.(messages := sel.value.messages, params := sel.value.params);
      if Fetches(s1) {
        SelectionAlternates(s, sv);
        ReplySettles(s1.messages, sv.remote(Chat.BuildRequest(s1.messages, s1.params)));
      }
    }
  }

  // ---------------------------------------------------------------- the loop

  datatype RunResult = RunResult(state: CliState, status: Status, rounds: nat)

  /** The branch a round takes, or none when selection fails. */
  function BranchTaken(s: CliState, sv: Services): (b: seq<Branch>)
    ensures |b| <= 1
    ensures b == [] <==> SelectBranch(s.params, s.query, s.cache, sv.prompts).Failure?
  {
    var sel := SelectBranch(s.params, s.query, s.cache, sv.prompts);
    if sel.Success? then [sel.value.branch] else []
  }

  /** The round after one that continues takes the cache branch, if it takes any. */
  lemma ResumedFromCache(s: CliState, sv: Services, nextQuery: string)
    requires Step(s, sv).status == Continue
    ensures BranchTaken(s, sv) != []
    ensures var b := BranchTaken(Step(s, sv).state.(query := nextQuery), sv);
      b == [] || b == [FromCache]
  {
    InteractiveResumesFromCache(s, sv, nextQuery);
  }

  /** The whole `while True` loop: rounds go on while interactive, each later round's
      query being the next line the user enters (`answers`); running out of lines is the
      end-of-input error of `Prompt.ask`. */
  function RunLoop(s: CliState, sv: Services, answers: seq<string>): (r: RunResult)
    ensures 1 <= r.rounds <= |answers| + 1
    ensures r.status != Continue
    decreases |answers|
  {
    var step := Step(s, sv);
    if step.status != Continue then RunResult(step.state, step.status, 1)
    else if answers == [] then RunResult(step.state, Stopped(EOFError), 1)
    else
      var rest := RunLoop(step.state.(query := answers[0]), sv, answers[1..]);
      RunResult(rest.state, rest.status, rest.rounds + 1)
  }

  /** Putting one branch before a log that resumes from the cache throughout. */
  lemma FromCacheAfterFirst(first: seq<Branch>, rest: seq<Branch>)
    requires |first| == 1
    requires rest == [] || rest[0] == FromCache
    requires forall i :: 1 <= i < |rest| ==> rest[i] == FromCache
    ensures forall i :: 1 <= i < |first + rest| ==> (first + rest)[i] == FromCache
  {
  }

  /** The branches the loop's rounds take, in order: at most one per round, and every
      round after the first starts from the cached messages. */
  function BranchLog(s: CliState, sv: Services, answers: seq<string>): (bs: seq<Branch>)
    ensures |bs| <= |answers| + 1
    ensures bs == [] <==> BranchTaken(s, sv) == []
    ensures bs != [] ==> bs[0] == BranchTaken(s, sv)[0]
    ensures forall i :: 1 <= i < |bs| ==> bs[i] == FromCache
    decreases |answers|
  {
    var step := Step(s, sv);
    var branch := BranchTaken(s, sv);
    if step.status != Continue || answers == [] then branch
    else
      ResumedFromCache(s, sv, answers[0]);
      var rest := BranchLog(step.state.(query := answers[0]), sv, answers[1..]);
      FromCacheAfterFirst(branch, rest);
      branch + rest
  }

  /** At most one branch is taken per round of the loop. */
  lemma {:induction false} OneBranchPerRound(s: CliState, sv: Services, answers: seq<string>)
    ensures |BranchLog(s, sv, answers)| <= RunLoop(s, sv, answers).rounds
    decreases |answers|
  {
    var step := Step(s, sv);
    if step.status == Continue && answers != [] {
      OneBranchPerRound(step.state.(query := answers[0]), sv, answers[1..]);
    }
  }

  /** How the loop ends or goes on after its first round. */
  lemma RunLoopUnfolds(s: CliState, sv: Services, answers: seq<string>)
    ensures var r, step := RunLoop(s, sv, answers), Step(s, sv);
      step.status != Continue ==> r.state == step.state && r.status == step.status && r.rounds == 1
    ensures var r, step := RunLoop(s, sv, answers), Step(s, sv);
      step.status == Continue && answers == [] ==>
        r.state == step.state && r.status == Stopped(EOFError) && r.rounds == 1
    ensures var r, step := RunLoop(s, sv, answers), Step(s, sv);
      step.status == Continue && answers != [] ==>
        var rest := RunLoop(step.state.(query := answers[0]), sv, answers[1..]);
        r.state == rest.state && r.status == rest.status && r.rounds == rest.rounds + 1
  {
  }

  /** The same through the whole loop: every history the loop caches alternates. */
  lemma {:induction false} LoopKeepsCacheSettled(s: CliState, sv: Services, answers: seq<string>)
    requires Settled(s.cache)
    requires forall request :: sv.remote(request).role != "user"
    ensures Settled(RunLoop(s, sv, answers).state.cache)
    decreases |answers|
  {
    CacheStaysSettled(s, sv);
    RunLoopUnfolds(s, sv, answers);
    var step := Step(s, sv);
    if step.status == Continue && answers != [] {
      LoopKeepsCacheSettled(step.state.(query := answers[0]), sv, answers[1..]);
    }
  }

  /** Without `interactive` (and no prompt config that could set it) there is exactly one round. */
  lemma OneRoundWithoutInteractive(s: CliState, sv: Services, answers: seq<string>)
    requires "interactive" in s.params && !Truthy(s.params["interactive"])
    requires "prompt_config" !in s.params
    ensures RunLoop(s, sv, answers).rounds == 1
  {
    var sel := SelectBranch(s.params, s.query, s.cache, sv.prompts);
    if sel.Success? {
      assert sel.value.branch != FromPrompt;
      assert sel.value.params == s.params;
    }
  }

  /** The state of `cli()` as an object: the loop's variables, the cache slot, and logs
      of what was printed and what was sent to the remote. */
  class Controller {
    var params: Dict
    var query: string
    var messages: seq<Chat.Message>
    var cache: Option<seq<Chat.Message>>
    var transcript: seq<Printer.Output>
    var requests: seq<Chat.ChatRequest>
    const services: Services

    function State(): CliState
      reads this
    {
      CliState(params, query, messages, cache, transcript, requests)
    }

    constructor (query: string, params: Dict, cache: Option<seq<Chat.Message>>, services: Services)
      ensures State() == CliState(params, query, [], cache, [], [])
      ensures this.services == services
    {
      this.params := params;
      this.query := query;
      this.messages := [];
      this.cache := cache;
      this.transcript := [];
      this.requests := [];
      this.services := services;
    }

    /** `fetch_and_cache(messages, params)`. */
    method FetchAndCache()
      modifies this
      ensures State() == Fetched(old(State()), services)
    {
      var request := Chat.BuildRequest(messages, params);
      var responseMsg := services.remote(request);
      requests := requests + [request];
      messages := messages + [responseMsg];
      cache := Some(messages);
    }

    /** One pass through the loop body. */
    method Round() returns (status: Status)
      modifies this
      ensures StepResult(State(), status) == Step(old(State()), services)
    {
      var selected := SelectBranch(params, query, cache, services.prompts);
      status := Proceed(selected);
    }

    /** The loop body after `select_branch`-like choice of messages. */
    method Proceed(selected: Result<Selection, Fault>) returns (status: Status)
      modifies this
      ensures StepResult(State(), status) == Resolved(old(State()), selected, services)
    {
      if selected.Failure? {
        if selected.error == SystemExit {
          transcript := transcript + [Printer.Text(NothingToDo)];
        }
        return Stopped(selected.error);
      }
      ghost var s1 := State().(messages := selected.value.messages, params := selected.value.params);
      messages := selected.value.messages;
      params := selected.value.params;
      assert State() == s1;
      if messages == [] {
        return Stopped(IndexError);
      }
      status := Respond();
    }

    /** The round after selection: tokens mode, or fetch-if-user and print. */
    method Respond() returns (status: Status)
      requires messages != []
      modifies this
      ensures StepResult(State(), status) == Answered(old(State()), services)
    {
      ghost var s0 := State();
      var shown;
      if TokensMode(params) {
        var numTokens := Chat.NumTokensInMessages(messages, services.encLen);
        shown := services.show.tokens(messages, numTokens, params);
        assert Answered(s0, services) == Printed(s0, shown);
      } else {
        if messages[|messages| - 1].role == "user" {
          FetchAndCache();
        }
        ghost var s2 := State();
        assert s2 == if Fetches(s0) then Fetched(s0, services) else s0;
        shown := services.show.messages(messages, params);
        assert Answered(s0, services) == Printed(s2, shown);
      }
      status := Show(shown);
    }

    /** Printing what the round produced, then the `interactive` check. */
    method Show(shown: Result<seq<Printer.Output>, Fault>) returns (status: Status)
      modifies this
      ensures StepResult(State(), status) == Printed(old(State()), shown)
    {
      if shown.Failure? {
        return Stopped(shown.error);
      }
      transcript := transcript + shown.value;
      var interactive := Get(params, "interactive");
      if interactive.Failure? {
        return Stopped(interactive.error);
      }
      if Truthy(interactive.value) {
        params := params["last" := Bool(true)];
        status := Continue;
      } else {
        status := Finished;
      }
    }

    /** The `while True` loop, reading each further query from `answers`. */
    method Run(answers: seq<string>) returns (status: Status, rounds: nat)
      modifies this
      ensures var r := RunLoop(old(State()), services, answers);
        State() == r.state && status == r.status && rounds == r.rounds
    {
      ghost var goal := RunLoop(State(), services, answers);
      var k := 0;
      while true
        invariant 0 <= k <= |answers|
        invariant var rest := RunLoop(State(), services, answers[k..]);
          goal.state == rest.state && goal.status == rest.status && goal.rounds == k + rest.rounds
        decreases |answers| - k
      {
        ghost var before := State();
        RunLoopUnfolds(before, services, answers[k..]);
        status := Round();
        if status != Continue {
          rounds := k + 1;
          return;
        }
        if k == |answers| {
          status := Stopped(EOFError);
          rounds := k + 1;
          return;
        }
        query := answers[k];
        assert answers[k..][1..] == answers[k + 1..];
        assert State() == Step(before, services).state.(query := answers[k]);
        k := k + 1;
      }
    }
  }

  /** `cli()`: parse, then run the loop with the printer of `Printer`; a missing key
      prints a notice and exits. */
  method Execute(args: Dict, piped: Option<string>, env: map<string, string>,
                 cache: Option<seq<Chat.Message>>, prompts: map<string, Dict>,
                 remote: Chat.ChatRequest -> Chat.Message, encLen: string -> nat,
                 normalize: string -> Option<string>, answers: seq<string>)
    returns (status: Status, transcript: seq<Printer.Output>, cacheAfter: Option<seq<Chat.Message>>)
    requires ArgparseShaped(args)
    ensures var parsed := ParseInput(args, piped, env);
      parsed.Failure? ==>
        (status == Stopped(parsed.error) && cacheAfter == cache
         && transcript == (if parsed.error == SystemExit then [Printer.Text(NoApiKey)] else []))
    ensures var parsed := ParseInput(args, piped, env);
      parsed.Success? ==>
        var sv := Services(prompts, remote, encLen, StandardPrinting(normalize));
        var r := RunLoop(CliState(parsed.value.params, parsed.value.query, [], cache, [], []), sv, answers);
        status == r.status && transcript == r.state.transcript && cacheAfter == r.state.cache
  {
    var parsed := ParseInput(args, piped, env);
    if parsed.Failure? {
      transcript := if parsed.error == SystemExit then [Printer.Text(NoApiKey)] else [];
      return Stopped(parsed.error), transcript, cache;
    }
    var services := Services(prompts, remote, encLen, StandardPrinting(normalize));
    var controller := new Controller(parsed.value.query, parsed.value.params, cache, services);
    var rounds;
    status, rounds := controller.Run(answers);
    transcript := controller.transcript;
    cacheAfter := controller.cache;
  }
}
