# chatblade core, modelled in Dafny

chatblade is a command-line client for a chat-completion service. It joins the words
on the command line, plus any text piped in, into one query. It then does one of three
things:

- continues the cached conversation (`--last`, `--extract`, `--raw`);
- starts a conversation from a prompt configuration (`--prompt-config`);
- starts a plain conversation.

The history goes to the remote service, and the reply is appended and cached. Then the
conversation is printed: as role panels, as raw text, or with the JSON or code block
extracted. `--tokens` counts tokens instead of sending anything. `--interactive` keeps
asking for further queries and continues from the cache each time. Named sessions are
YAML files in the cache directory and can be listed, renamed and deleted.

The project has one Dafny module per source file, plus three support modules:

- `Wrappers`: `Option` and `Result`.
- `Values`: Python values, dict lookup, truthiness and the exceptions raised.
- `Strings`: `str.join`, `str.strip`, `str.splitlines`, substring search and
  lexicographic order.

Python exceptions are `Fault` values inside a `Result`.

Everything the code calls but does not define is a parameter:

- the tokenizer's encoded length (`encLen`);
- the `json.dumps(json.loads(...))` round trip (`normalize`, `None` when the text is not JSON);
- the completion endpoint (`complete`, `remote`);
- inside the loop, the printer (`Cli.Printing`); `Cli.Execute` supplies the one of
  `Printer`, so the loop's proofs do not depend on how output is formatted;
- the prompt files that exist (`prompts`);
- the environment (`env`);
- piped standard input (`piped`);
- the lines typed at the interactive prompt (`answers`);
- the cache file, one slot holding an optional message list;
- the session directory (a map from file name to contents).

Two pieces of code update state in place: argparse's namespace (`Parser.Namespace`) and
the session directory (`Session.SessionStore`). Both are classes whose methods are proved
against pure functions. The `cli()` loop is the class `Cli.Controller`. Its
fields are the loop variables, the cache slot and logs of what was printed and what was
sent. Its methods are proved equal to the pure `Cli.Step` and `Cli.RunLoop`, and the
properties of the loop are lemmas about those two functions.

## Model

| member | source | states |
|---|---|---|
| Values.Truthy | chatblade/cli.py:142 | Python's `if v:` on a dict value: None is false, and a string is true exactly when it is non-empty, as for an optional text |
| Values.Get | chatblade/cli.py:163 | `d[k]` gives the value when `k` is a key and raises KeyError(k) otherwise |
| Values.DropNone | chatblade/cli.py:81 | the dict keeps exactly the keys whose value is not None, with their values |
| Strings.Join | chatblade/parser.py:28 | `sep.join(parts)`: "" for no parts, and otherwise text that starts with the first part |
| Strings.JoinSnoc | chatblade/parser.py:28 | built from the right, one more part adds the separator and that part |
| Strings.JoinEmpty | chatblade/parser.py:28 | joining with a non-empty separator gives "" exactly when there are no parts or one empty part |
| Strings.Strip | chatblade/printer.py:89 | `strip()` drops exactly the leading and trailing whitespace: the result is empty iff the text is all whitespace, and otherwise starts and ends with non-whitespace |
| Strings.SplitLines | chatblade/printer.py:110 | `splitlines()` yields no lines exactly for "", and no line contains a line boundary |
| Strings.SplitLinesKeepsText | chatblade/printer.py:110 | the lines, joined with no separator, are the text with its boundary characters removed |
| Strings.SplitLinesCount | chatblade/printer.py:110 | one line per boundary (`\r\n` counting once), plus one when the text does not end in a boundary |
| Strings.Find | chatblade/printer.py:87 | the leftmost occurrence of a pattern at or after a position, or none at all |
| Strings.Less | chatblade/session.py:11 | the order `sorted` uses: a proper prefix sorts before the longer string |
| Strings.LessLexicographic | chatblade/session.py:11 | `a < b` iff `a` is a proper prefix of `b`, or at the first position where they differ `a` has the smaller code point |
| Strings.LessIrreflexive | chatblade/session.py:11 | code-point order on strings is irreflexive |
| Strings.LessTransitive | chatblade/session.py:11 | code-point order on strings is transitive |
| Strings.LessTotal | chatblade/session.py:11 | any two distinct strings are ordered one way or the other |
| Strings.LeastExists | chatblade/session.py:11 | every non-empty set of strings has a least element |
| Strings.SortedSeq | chatblade/session.py:11-16 | `sorted` of a set of names is strictly ascending and holds exactly those names |
| Utils.MergeDicts | chatblade/utils.py:1-5 | only keys of `dict1` survive; `dict2`'s non-None values win; no None survives; a None in `dict2` removes the key |
| Utils.MergeKeys | chatblade/utils.py:2-4 | a key is in the merge iff it is in `dict1` and the winning value is not None |
| Utils.MergeIdempotent | chatblade/utils.py:1-5 | merging the same overrides twice changes nothing more |
| Utils.MergeWithNothing | chatblade/utils.py:4 | merging with an empty dict only drops the None values |
| Chat.InitConversation | chatblade/chat.py:76-78 | one or two messages ending in the user turn; a system turn comes first exactly when the system text is truthy |
| Chat.Apply | chatblade/chat.py:95-98 | a delta with a truthy role sets the role and adds nothing; otherwise its content fragment is appended |
| Chat.Reduce | chatblade/chat.py:92-98 | the running state: its role is None or a truthy role |
| Chat.Snapshots | chatblade/chat.py:92-99 | one snapshot per delta |
| Chat.FirstDeltas | chatblade/chat.py:93-94 | the first choice's delta of each update, up to the first update with no choices |
| Chat.SnapshotsSnoc | chatblade/chat.py:93-99 | one more delta yields exactly one more snapshot, the running state after it |
| Chat.MapFromStream | chatblade/chat.py:89-99 | the yielded snapshots are the running (role, content) states; the stream fails iff some update has no choices; otherwise there is one snapshot per update |
| Chat.FragmentsSnoc | chatblade/chat.py:97-98 | the content fragments concatenate in arrival order |
| Chat.ReducedContent | chatblade/chat.py:97-98 | the final content is the concatenation of the fragments of deltas that set no role |
| Chat.ReducedRole | chatblade/chat.py:95-96 | the role is None iff no delta sets one, and otherwise is the last role set |
| Chat.ReducePrefix | chatblade/chat.py:92-99 | the content after a prefix of the deltas is a prefix of the final content |
| Chat.SnapshotsGrow | chatblade/chat.py:99 | snapshot contents only grow: each earlier one is a prefix of each later one |
| Chat.MapSingle | chatblade/chat.py:102-105 | the first choice's message, or IndexError exactly when there are no choices |
| Chat.MessageTokens | chatblade/chat.py:60-64 | a message costs at least its 4 framing tokens, whatever the encoder gives for its role and content |
| Chat.TokenSumAppend | chatblade/chat.py:59-69 | the per-message token sum is additive over concatenation |
| Chat.TokenSum | chatblade/chat.py:59-69 | the per-message sum, at least 4 tokens per message |
| Chat.NumTokensInMessages | chatblade/chat.py:51-73 | the count is the sum of 4 + role tokens + content tokens per message, plus 2 when the last turn is the user's, and at least 4 per message |
| Chat.AsDict | chatblade/chat.py:119 | a message becomes the dict with exactly `role` and `content` |
| Chat.BuildRequest | chatblade/chat.py:115-121 | the request carries every message as a dict, in order; the settings are the defaults overridden by the config's non-None values for known keys only |
| Chat.RequestSettingsOnly | chatblade/chat.py:118 | only `model`, `temperature`, `n` and `stream` reach the endpoint; the API key never does |
| Chat.RequestHasAllSettings | chatblade/chat.py:81-86 | a config with no None values yields all four default settings |
| Chat.QueryChatGpt | chatblade/chat.py:115-127 | a streamed result becomes the stream's snapshots; the stream is marked failed exactly when some update has no choices; a single result becomes its first message, or IndexError when it has none |
| Printer.NoBlocksIffNoPair | chatblade/printer.py:87 | there are no fenced blocks iff no fence is followed by a later fence that does not overlap it |
| Printer.BetweenFencesFenceFree | chatblade/printer.py:87 | the text between a fence and the nearest later fence contains no fence |
| Printer.Blocks | chatblade/printer.py:87 | non-greedy matching: no matched block contains a fence |
| Printer.LongestLast | chatblade/printer.py:89 | the index `sorted(key=len)[-1]` picks: a longest block, and the last of them |
| Printer.ExtractBlock | chatblade/printer.py:86-94 | None iff there is no fenced block; otherwise the stripped last-longest block |
| Printer.ContainsBlock | chatblade/printer.py:80-83 | true iff a block is extracted and it is non-empty after stripping |
| Printer.IsJsonStart | chatblade/printer.py:112 | a line starts JSON iff its first non-whitespace character is `{` or `[` |
| Printer.FirstJsonLine | chatblade/printer.py:110-112 | the first line that starts with `{` or `[` after stripping, or none |
| Printer.ExtractJson | chatblade/printer.py:105-115 | ValueError "No json in string" iff no line starts JSON; otherwise the normalized JSON of the lines from the first such line, joined by spaces, or a decode error |
| Printer.ContainsJson | chatblade/printer.py:97-102 | true iff extraction succeeds |
| Printer.Shorten | chatblade/printer.py:67-68 | text longer than a positive cutoff becomes the marker plus its last `cutoff` characters; otherwise it is unchanged |
| Printer.DetectAndFormat | chatblade/printer.py:63-69 | JSON view iff the text contains JSON, showing the extracted JSON; otherwise markdown of the shortened text |
| Printer.Cutoff | chatblade/printer.py:47 | user messages are cut at 1000 characters, the others not at all |
| Printer.PrintMessage | chatblade/printer.py:45-50 | a panel titled with the role; the JSON view exactly when the content holds JSON, showing the extracted JSON; otherwise Markdown of the content shortened at the role's cutoff, so only user text is shortened |
| Printer.Selected | chatblade/printer.py:37-39 | exactly the messages whose role is selected; all of them when every role is selected |
| Printer.SelectedCounts | chatblade/printer.py:37-39 | each message of a selected role is kept as many times as it occurs, every other message not at all |
| Printer.SelectedKeepsOrder | chatblade/printer.py:37-39 | selecting from two parts is selecting from each in turn, so the original order is kept |
| Printer.SelectedOne | chatblade/printer.py:38 | a single message is kept exactly when its role is selected |
| Printer.Panels | chatblade/printer.py:37-39 | one panel per message, in order |
| Printer.ExtractText | chatblade/printer.py:53-60 | JSON if there is any, else the code block, else the text unchanged |
| Printer.ExtractMessages | chatblade/printer.py:53-60 | the extracted text of the last message; IndexError exactly on an empty history |
| Printer.PrintMessages | chatblade/printer.py:30-39 | raw prints the last content; else extract; else panels of the selected roles; KeyError when `raw` or `extract` is missing |
| Printer.PrintTokens | chatblade/printer.py:17-27 | prints every role, then the token table; a printing error stops before the table |
| Printer.DefaultHidesSystem | chatblade/printer.py:30-39 | with the default roles, system turns get no panel, while every user and assistant turn does |
| Printer.TokensShowEverything | chatblade/printer.py:17-20 | token mode shows a panel for every message |
| Parser.ExtractQuery | chatblade/parser.py:23-37 | both present: piped text, separator, then query; otherwise whichever is present |
| Parser.QueryAbsent | chatblade/parser.py:28-37 | there is no query iff the words join to "" and there is no piped text |
| Parser.GetOpenaiKey | chatblade/parser.py:14-20 | a truthy given key wins, else `OPENAI_API_KEY` from the environment, else None |
| Parser.ExtractedOptions | chatblade/parser.py:40-46 | the key is resolved, `chat_gpt` becomes `model`, `query` and `chat_gpt` are gone, and every other option is kept |
| Parser.Namespace.ExtractOptions | chatblade/parser.py:40-46 | the namespace becomes the extracted options |
| Parser.Namespace.Parse | chatblade/parser.py:121-122 | returns the extracted query and leaves the extracted options |
| Session.SessionFile | chatblade/session.py:10 | a session's file name is its name plus `.yaml` |
| Session.IsSessionFile | chatblade/session.py:10 | a file the `*.yaml` glob matches is the file of a listable (non-empty, not hidden) session name |
| Session.SessionFileInjective | chatblade/session.py:13 | distinct names have distinct files |
| Session.SessionName | chatblade/session.py:13 | stripping `.yaml` inverts the file name |
| Session.SessionFileMatches | chatblade/session.py:10-13 | a session's file is listed iff the name is non-empty and not hidden, and it lists as that name |
| Session.ListSessions | chatblade/session.py:8-16 | sorted strictly ascending; holds exactly the listable names whose file exists |
| Session.Rename | chatblade/session.py:19-29 | succeeds iff the session exists and the new name does not; a failure leaves the directory as it was; a success moves the contents to the new file, which is the only file added and the old one the only removed |
| Session.Delete | chatblade/session.py:32-38 | succeeds iff the session exists; the directory afterwards is the old one without that session's file |
| Session.RenameFailure | chatblade/session.py:22-27 | a missing source gives "does not exist"; an existing target gives "already exists"; the directory is unchanged either way |
| Session.RenameSuccess | chatblade/session.py:28-29 | the file moves to the new name with its contents, and nothing else changes |
| Session.RenameRoundTrip | chatblade/session.py:19-29 | renaming back restores the directory |
| Session.RenamedFile | chatblade/session.py:28-29 | after a rename a name's file exists iff it existed under another name than the old one, or it is the new name |
| Session.ListAfterRename | chatblade/session.py:19-29 | after a rename, the list is the old list without the old name and with the new one |
| Session.DeleteSpec | chatblade/session.py:32-38 | a missing session gives "does not exist" and changes nothing; otherwise exactly its file is removed |
| Session.ListAfterDelete | chatblade/session.py:32-38 | after a delete, the list is the old list without that name |
| Session.SessionStore.RenameSession | chatblade/session.py:19-29 | the directory and error string are the rename outcome |
| Session.SessionStore.DeleteSession | chatblade/session.py:32-38 | the directory and error string are the delete outcome |
| Cli.ParseInput | chatblade/cli.py:78-103 | no key means SystemExit; None options are dropped; the key is resolved; `3.5`/`4` pick the model, any other version is ValueError; piped text goes above the query |
| Cli.ModelFor | chatblade/cli.py:90-96 | only the versions `3.5` and `4` are accepted, naming `gpt-3.5-turbo` and `gpt-4`; any other version is ValueError with the version in the message |
| Cli.PipedWithoutWords | chatblade/cli.py:98-101 | piped text with no words still makes a query: the text and the separator |
| Cli.AnyTruthy | chatblade/cli.py:142 | `a or b or c` over dict entries: with every key present, true iff some entry is truthy; a truthy first entry gives true; a failure is a KeyError on a listed key that is missing |
| Cli.AnyTruthyShortCircuits | chatblade/cli.py:142 | evaluation stops at the first truthy entry: a KeyError happens iff a missing key is reached before any truthy entry, and it names that key; true iff a truthy entry is reached first |
| Cli.SelectBranch | chatblade/cli.py:141-154 | any truthy one of `last`/`extract`/`raw` takes the cache branch (FileNotFound with no cache), adding the user turn iff the query is non-empty; a missing flag key is KeyError; else a prompt config gives TypeError, the not-found ValueError, KeyError(`system`), or a conversation from the prompt's system text with params merged by `merge_dicts`; else a non-empty query starts a plain conversation; else nothing to do |
| Cli.Fetched | chatblade/cli.py:132-136 | exactly one reply is appended, the whole history is cached, and the request is logged |
| Cli.Continuation | chatblade/cli.py:163-167 | the loop continues iff `interactive` is truthy, and then `last` is on |
| Cli.Printed | chatblade/cli.py:162-167 | a printing error ends the loop; otherwise the output is appended and the loop continues or stops |
| Cli.TokensMode | chatblade/cli.py:156 | with no `tokens` key, token mode is off rather than a KeyError; with the key, it is on iff the value is truthy, as in the `or` chain |
| Cli.Fetches | chatblade/cli.py:156-160 | the remote is asked only outside token mode, and never for a settled history (one ending in a non-user turn) |
| Cli.Answered | chatblade/cli.py:156-162 | the history is fetched exactly when not in token mode and the last turn is the user's |
| Cli.Resolved | chatblade/cli.py:141-167 | after selection: a selection error ends the round with nothing fetched; an empty history is IndexError; otherwise the fetch rule holds and continuing switches `last` on |
| Cli.Step | chatblade/cli.py:141-167 | a selection error ends the round with nothing fetched; an empty history is IndexError; otherwise the fetch rule holds and continuing switches `last` on |
| Cli.TokensModeIsOffline | chatblade/cli.py:156-158 | token mode neither calls the remote nor writes the cache |
| Cli.FetchOnlyAfterUserTurn | chatblade/cli.py:159-161 | at most one remote call per round, only on a history ending in a user turn; the reply is appended and all of it cached; no call means no cache write |
| Cli.InteractiveResumesFromCache | chatblade/cli.py:142-165 | after a round that continues, the next round takes the cache branch whatever the query |
| Cli.SelectionAlternates | chatblade/cli.py:142-151 | with a settled cache, the selected history never has two user turns in a row |
| Cli.ReplySettles | chatblade/cli.py:134 | appending a non-user reply to an alternating history settles it |
| Cli.CacheStaysSettled | chatblade/cli.py:141-161 | if the remote never answers as the user, the cache stays alternating and never ends on an unanswered user turn |
| Cli.LoopKeepsCacheSettled | chatblade/cli.py:139-167 | the same holds for the cache the whole loop leaves behind |
| Cli.BranchTaken | chatblade/cli.py:142-154 | a round takes at most one branch, and none exactly when selection raises |
| Cli.ResumedFromCache | chatblade/cli.py:142-165 | a round that continues took a branch, and the next round takes the cache branch or none |
| Cli.RunLoop | chatblade/cli.py:139-167 | between 1 and one-more-than-the-answers rounds, never ending in the continue state |
| Cli.BranchLog | chatblade/cli.py:139-167 | the loop's branches: the first is the first round's, and every later one is the cache branch |
| Cli.OneBranchPerRound | chatblade/cli.py:141-154 | the loop takes no more branches than it runs rounds |
| Cli.OneRoundWithoutInteractive | chatblade/cli.py:163-167 | without `interactive` and without a prompt config, the loop runs exactly once |
| Cli.Controller.FetchAndCache | chatblade/cli.py:132-136 | the state becomes the fetch-and-cache result |
| Cli.Controller.Round | chatblade/cli.py:141-167 | the state and status become those of one loop step |
| Cli.Controller.Proceed | chatblade/cli.py:142-167 | the state and status become those of the round after the given selection |
| Cli.Controller.Respond | chatblade/cli.py:156-162 | the state and status become those of the post-selection step |
| Cli.Controller.Show | chatblade/cli.py:162-167 | the state and status become those of the print-and-continue step |
| Cli.Controller.Run | chatblade/cli.py:139-167 | the state, status and round count equal the loop function's |
| Cli.Execute | chatblade/cli.py:139-167 | a parse failure stops with the key notice on SystemExit and the cache untouched; otherwise the run of the loop with `Printer`'s printing |

## Left out

- Network, Azure client selection and the wrapping of client errors (chat.py:108-112,
  128-129): the endpoint is a parameter and its failures are not modelled. Its answer
  is either a stream or a single completion, so the `ValueError("unexpected result
  openai: ...")` for any other kind of result (chat.py:126-127) is not modelled.
- Dollar costs (chat.py:32-48, the cost rows of the token table, printer.py:21-27):
  floating point. `Chat.NumTokensInMessages` returns only the token count.
- Printer.PrintTokens: the cost rows of the table are dropped; only the count is kept.
- The tokenizer, JSON parsing and serialisation, and YAML loading are abstract
  functions. `json.loads` is a `normalize` function that fails or succeeds.
- Terminal rendering (rich panels, colours, Markdown, JSON pretty-printing): the output is
  a list of `Output` values.
- `extract_json_lists` (printer.py:72-77) is not part of this model.
- argparse itself: what the model relies on from it is a precondition.
  `Parser.FromArgparse` asks for the `query`, `openai_api_key` and `chat_gpt`
  destinations, a word-list query, and a `chat_gpt` that is one of the two versions.
  `Cli.ArgparseShaped` asks only for a word-list query and the `openai_api_key`
  destination, and allows `chat_gpt` to be absent, None or any string, since
  `Cli.ParseInput` models the ValueError for an unknown version.
- `storage.py` is not part of this model. A session exists when `<name>.yaml` is a key
  of the directory map. `~` expansion and the cache directory's location are left out.
  `os.rename`/`os.unlink` failures are not modelled.
- Cli.SelectBranch: a prompt's `system` entry counts only when it is a string. In the
  code, a truthy non-string value also becomes the system turn's content.
- Cli.SelectBranch: the prompt config's other entries merge into the parameters
  with the Python truthiness of whatever YAML gives. Only the value kinds of
  `Values.Value` are represented.
- Printer.PrintMessage: the border colour lookup `COLORS[role]` (printer.py:49) raises KeyError
  for a role other than user, assistant or system; the model shows such a turn like any other.
- Printer.PrintMessages: `roles` is read as a list of strings. Any other value selects
  no role, whereas Python would test membership in whatever object it is.
- Session.ListSessions is a ghost function. Sorting a set of names is described by its
  result, not computed.
- The interactive prompt: end of input on `Prompt.ask` is `Stopped(EOFError)` after the
  last given answer.
- `fetch_and_cache` unpacks `query_chat_gpt`'s result as a pair (cli.py:133). The
  token count is called without a cost configuration (cli.py:157). Both calls are
  out of step with `chat.py` as it stands. The model follows the evident intent:
  the endpoint returns one reply message, which is appended, and the count comes
  from `Chat.NumTokensInMessages`.
- Streaming display in the controller (live updating) is not modelled. `Cli` takes one
  reply message per request; `Chat.QueryChatGpt` covers the streamed mapping separately.

## Behaviour the code does not have

The model has none of these either:

- `rename_session` and `delete_session` (session.py:19-38) do not check session names
  for path separators or newlines themselves.
- An empty stream is not an error: `map_from_stream` simply yields nothing.
- `to_cache` (cli.py:111-114) writes the cache file in place, not atomically.
- No older cache format is migrated by the modelled files.
