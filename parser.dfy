/** chatblade/parser.py: combining the query words with piped input, finding the API
    key, and reshaping the parsed options. Standard input and the process environment
    are parameters; argparse itself is not modelled. */
module Parser {
  import opened Wrappers
  import opened Values
  import opened Strings

  const PipeSeparator := "\n----------------\n"

  /** `extract_query(query)`, with the piped standard input as `piped`: both present,
      the piped text above a separator line and the words; one present, that one;
      neither, None. Absent means falsy: no words, words that join to "", or "". */
  function ExtractQuery(words: seq<string>, piped: Option<string>): (r: Option<string>)
    ensures var q := Join(words, " ");
      q != "" && TruthyText(piped) ==> r == Some(piped.value + PipeSeparator + q)
    ensures var q := Join(words, " ");
      q != "" && !TruthyText(piped) ==> r == Some(q)
    ensures Join(words, " ") == "" ==> r == if TruthyText(piped) then piped else None
  {
    var query: Option<string> := if words != [] then Some(Join(words, " ")) else None;
    if TruthyText(query) && TruthyText(piped) then Some(piped.value + PipeSeparator + query.value)
    else if TruthyText(query) then query
    else if TruthyText(piped) then piped
    else None
  }

  /** The query is None exactly when neither source has text. */
  lemma QueryAbsent(words: seq<string>, piped: Option<string>)
    ensures ExtractQuery(words, piped).None? <==>
      (|words| == 0 || (|words| == 1 && words[0] == "")) && !TruthyText(piped)
  {
    JoinEmpty(words, " ");
  }

  const ApiKeyVariable := "OPENAI_API_KEY"

  /** `get_openai_key(options)`: a truthy option value, else the environment's
      OPENAI_API_KEY, else None. */
  function GetOpenaiKey(given: Value, env: map<string, string>): (r: Value)
    ensures Truthy(given) ==> r == given
    ensures !Truthy(given) && ApiKeyVariable in env ==> r == Str(env[ApiKeyVariable])
    ensures !Truthy(given) && ApiKeyVariable !in env ==> r == Null
  {
    if Truthy(given) then given
    else if ApiKeyVariable in env then Str(env[ApiKeyVariable])
    else Null
  }

  /** The model names behind `--chat-gpt`. */
  const ChatGptModels: map<string, string> := map["3.5" := "gpt-3.5-turbo", "4" := "gpt-4"]

  /** What argparse guarantees of the namespace `parse` builds: every destination is
      present, the query is a word list and `--chat-gpt` is one of its choices (with a
      default), so the model lookup cannot fail. */
  predicate FromArgparse(options: Dict) {
    && "query" in options && options["query"].StrList?
    && "openai_api_key" in options
    && "chat_gpt" in options && options["chat_gpt"].Str? && options["chat_gpt"].s in ChatGptModels
  }

  /** The options `extract_options` leaves: `query` and `chat_gpt` removed, the key and
      the model name set, every other entry as it was. */
  function ExtractedOptions(options: Dict, env: map<string, string>): (r: Dict)
    requires FromArgparse(options)
    ensures r.Keys == options.Keys - {"query", "chat_gpt"} + {"openai_api_key", "model"}
    ensures r["openai_api_key"] == GetOpenaiKey(options["openai_api_key"], env)
    ensures options["chat_gpt"] == Str("3.5") ==> r["model"] == Str("gpt-3.5-turbo")
    ensures options["chat_gpt"] == Str("4") ==> r["model"] == Str("gpt-4")
    ensures forall k :: k in options && k !in {"query", "chat_gpt", "openai_api_key", "model"} ==> r[k] == options[k]
  {
    map k | k in (options.Keys - {"query", "chat_gpt"}) + {"openai_api_key", "model"} ::
      if k == "openai_api_key" then GetOpenaiKey(options["openai_api_key"], env)
      else if k == "model" then Str(ChatGptModels[options["chat_gpt"].s])
      else options[k]
  }

  /** The argparse namespace, whose attribute dictionary `extract_options` edits in place. */
  class Namespace {
    var options: Dict

    constructor (options: Dict)
      ensures this.options == options
    {
      this.options := options;
    }

    /** `extract_options(options)`. */
    method ExtractOptions(env: map<string, string>)
      requires FromArgparse(options)
      modifies this
      ensures options == ExtractedOptions(old(options), env)
    {
      ghost var expected := ExtractedOptions(options, env);
      options := options["openai_api_key" := GetOpenaiKey(options["openai_api_key"], env)];
      options := options["model" := Str(ChatGptModels[options["chat_gpt"].s])];
      options := options - {"query"};
      options := options - {"chat_gpt"};
      assert options.Keys == expected.Keys;
      forall k | k in options
        ensures options[k] == expected[k]
      {
      }
    }

    /** The last two lines of `parse(args)`: the query, then the options. */
    method Parse(piped: Option<string>, env: map<string, string>) returns (query: Option<string>)
      requires FromArgparse(options)
      modifies this
      ensures query == ExtractQuery(old(options)["query"].items, piped)
      ensures options == ExtractedOptions(old(options), env)
    {
      query := ExtractQuery(options["query"].items, piped);
      ExtractOptions(env);
    }
  }
}
