# ai_agent core, modelled in Dafny

This project models the core of `ai_agent`, a tool-using chat agent:

- **Tool contract** (`tools/base.py`). This covers parameter declarations, tool results and the defaults a tool takes at construction. It also covers the shallow "every required parameter is present" check and the projection of a tool into its function-calling schema. Module `ToolBase`.
- **Agent** (`agent/core.py`). Module `AgentCore`, class `Agent`. It covers:
  - the tool registry, kept in insertion order;
  - guarded dispatch (`execute_tool`);
  - provider routing;
  - conversion of the stored history into provider messages;
  - the OpenAI exchange with its single tool-resolution round;
  - the Anthropic exchange;
  - `chat`, which records the turn in the conversation store.

  Each provider client is an oracle, a function from the request the agent sends to the reply it gets. The reply is text, an ordered list of tool calls, or a failure. A tool's `execute` is an abstract executor that returns a result or raises.
- **Conversation store** (`memory/conversation.py`). Module `Conversation`, class `ConversationStore`. An in-memory cache of message lists sits in front of the `conversations` and `messages` tables.
  - Each table is a sequence of rows in insertion order.
  - `uuid4()` is a caller-supplied id, and `datetime.now()` is a caller-supplied label for the default title.
  - Every timestamp comes from one counter, `clock`, which each write advances.
  - The store invariant keeps message timestamps strictly increasing along the table. That is the assumption under which `ORDER BY timestamp` returns a conversation's rows in insertion order (`RowsOf` ensures it).
- **File tools** (`tools/file_operations.py`). Module `FileOperations`. It covers the argument guards and error messages of `read_file` and `write_file`. It also covers the hidden-entry filter, the "directories first, then case-insensitive name" sort and the count of `list_directory`. Each tool is given what the filesystem reports for its path.
- **Web tools** (`tools/web_search.py`). Module `WebSearch`. It covers the result-capping loop of `web_search` over the result blocks of the page, and the whitespace normalisation and truncation of `web_scrape` over the page text.
- Modules `Wrappers` and `Text` hold `Option`/`Result` and the Python and SQLite string operations the core uses:
  - `strip` (over the characters `str.isspace` accepts), ASCII `lower`, `split`, `join` and slicing;
  - Python string order;
  - SQLite `LIKE`.

How the calls combine, as the source does it:

- `add_message` on an id that is not cached starts an empty cached list. Older stored rows of that id are therefore masked from later reads (`Conversation.SeedingMasksStoredRows`).
- `clear_conversation` keeps the conversation listed with no messages, while `delete_conversation` removes it (`Conversation.ClearThenDelete`).
- One `chat` turn writes exactly one user row and at most one assistant row. The assistant row carries the executed tool calls. The `tool` messages of the follow-up request exist only in that request.

Behaviour a reader might not expect:

- A turn with tool calls stores a single assistant message: the final content together with the executed tool calls. No `tool` message is stored.
- Appending to an unknown conversation only seeds the cache; no conversation row is inserted.
- A follow-up reply with no content reaches the cache as `None` and is then refused by the `NOT NULL` column. `chat` then fails after the user message is stored (`AgentCore.Agent.Chat` returns the constraint error, and its `Recorded` clause keeps the `None` message at the end of the cached history).
- The Anthropic path drops every message that is not a user or assistant message, and adds no system prompt.

## Model

| member | source | states |
|---|---|---|
| ToolBase.InitTool | ai_agent/tools/base.py:24-27 | an undeclared name is the lower-cased class name: as long as it, with no upper-case letter and every other character kept; a declared name is kept; an undeclared description is "No description provided"; undeclared parameters are empty |
| ToolBase.DeclaredParameterIsMandatory | ai_agent/tools/base.py:5-12 | a parameter declared with only name, type and description is required, so a call without its key fails validation |
| ToolBase.ValidateParameters | ai_agent/tools/base.py:34-39 | true exactly when every required parameter's name is a key of the arguments |
| ToolBase.ExtraKeysKeepValid | ai_agent/tools/base.py:36-39 | adding keys (unknown extras or optional parameters) never makes a valid call invalid |
| ToolBase.MissingOptionalKeepsValid | ai_agent/tools/base.py:36-39 | leaving out a key no required parameter is named after never makes a valid call invalid |
| ToolBase.PropertyOf | ai_agent/tools/base.py:49-53 | a property carries the parameter's type and description, with `enum` present exactly when the enumeration is present and non-empty, and then equal to it |
| ToolBase.Properties | ai_agent/tools/base.py:48-55 | the property keys are exactly the declared parameter names |
| ToolBase.PropertyOfLastDeclaration | ai_agent/tools/base.py:48-55 | the last declaration of a name decides its property |
| ToolBase.RequiredNames | ai_agent/tools/base.py:56 | a name is listed exactly when some required parameter has it |
| ToolBase.RequiredNamesAppend | ai_agent/tools/base.py:56 | the required list follows declaration order: one more declaration appends its name exactly when it is required |
| ToolBase.GetSchema | ai_agent/tools/base.py:41-58 | name and description are copied; an object schema whose properties are keyed by the declared names and whose required names are all property keys, exactly the required parameters' names |
| ToolBase.SchemaOfUniqueParameters | ai_agent/tools/base.py:48-55 | with unique parameter names each property is built from its own parameter |
| FileOperations.FileToolValidation | ai_agent/tools/file_operations.py:12-159 | the three file tools' validation only asks for the keys of `file_path`, `file_path` and `content`, and `directory_path` |
| FileOperations.ReadFile | ai_agent/tools/file_operations.py:27-69 | an empty or missing path fails first; missing file, non-file and read failure give their messages; on success the content is the file text and `size` is its length |
| FileOperations.WriteFile | ai_agent/tools/file_operations.py:103-139 | fails with the guard message exactly when the path is empty or missing or the content is missing; empty content is written; the mode is "append" exactly when `append` is set |
| FileOperations.KeptMembers | ai_agent/tools/file_operations.py:186-196 | an item is kept exactly when it is the item of an entry the filter keeps: every entry when `include_hidden` is set, otherwise every entry whose name does not start with "." |
| FileOperations.KeptItemsShape | ai_agent/tools/file_operations.py:186-196 | without `include_hidden` no kept name starts with "."; no directory carries a size |
| FileOperations.KeptAppend | ai_agent/tools/file_operations.py:186-196 | filtering goes entry by entry: the items kept from two runs of entries are those of the first run followed by those of the second, so `iterdir()` order is kept |
| FileOperations.KeyLeTotal | ai_agent/tools/file_operations.py:199 | the sort key order is total |
| FileOperations.KeyLeTransitive | ai_agent/tools/file_operations.py:199 | the sort key order is transitive |
| FileOperations.InsertMembers | ai_agent/tools/file_operations.py:199 | inserting keeps every item and adds the new one once |
| FileOperations.InsertCorrect | ai_agent/tools/file_operations.py:199 | inserting into a sorted list gives a sorted permutation with the new item |
| FileOperations.SortItemsCorrect | ai_agent/tools/file_operations.py:199 | the sort yields a permutation with every directory before every file and names non-decreasing ignoring case within each group |
| FileOperations.SortItemsMembers | ai_agent/tools/file_operations.py:199 | sorting keeps the number of items and only yields items of its input |
| FileOperations.KeptItems | ai_agent/tools/file_operations.py:186-196 | the filtering loop builds exactly the kept items, in `iterdir()` order |
| FileOperations.SortedListing | ai_agent/tools/file_operations.py:186-199 | the sorted listing is a permutation of the kept items, ordered by the sort key, with no hidden name unless asked for, every entry when asked for, and no size on a directory |
| FileOperations.ListDirectory | ai_agent/tools/file_operations.py:161-214 | the guard and the three error messages; on success the items are a sorted permutation of the kept entries, `total_count` is their number, no hidden names without `include_hidden`, directories have no size |
| WebSearch.TitledMembers | ai_agent/tools/web_search.py:58-70 | a result is produced exactly when it is the entry of a titled block ("" for a missing href or snippet); untitled blocks are skipped; one result per block when every block is titled |
| WebSearch.TitledAppend | ai_agent/tools/web_search.py:58-70 | blocks are handled one at a time: the results of two runs of blocks are those of the first run followed by those of the second, so page order is kept |
| WebSearch.Scanned | ai_agent/tools/web_search.py:54-56 | the loop looks at no more blocks than there are and no more than `num_results` |
| WebSearch.Search | ai_agent/tools/web_search.py:33-85 | an empty query fails first; a failed fetch gives the search-failed message; the results are the titled blocks among the first `num_results`, never more than `num_results`, and `total_found` is their number |
| WebSearch.Phrases | ai_agent/tools/web_search.py:137 | every phrase of a line is stripped and has no double space |
| WebSearch.Chunks | ai_agent/tools/web_search.py:136-137 | every chunk of every line is stripped and has no double space |
| WebSearch.NonEmptyMembers | ai_agent/tools/web_search.py:138 | a chunk is kept exactly when it is one of the chunks and is not empty |
| WebSearch.NonEmptyAppend | ai_agent/tools/web_search.py:138 | chunks are filtered one at a time: the kept chunks of two runs are those of the first run followed by those of the second, so text order is kept |
| WebSearch.Normalise | ai_agent/tools/web_search.py:136-138 | the normalised text has no whitespace at either end and no two consecutive spaces |
| WebSearch.Scrape | ai_agent/tools/web_search.py:107-156 | an empty url fails first; a failed fetch gives the scrape-failed message; text longer than a non-negative `max_length` becomes its first `max_length` characters plus "..." and otherwise is unchanged (a negative `max_length`: `WebSearch.ScrapeNegativeLimit`); `length` is the returned length |
| WebSearch.ScrapeNegativeLimit | ai_agent/tools/web_search.py:141-142 | with a negative `max_length` the scraped text loses that many characters from its end (all when there are fewer) and gains "..." |
| Text.Strip | ai_agent/tools/web_search.py:136 | the result has no `str.isspace` character at either end, is empty exactly when the input is all such characters, and keeps the absence of double spaces |
| Text.StripIsSlice | ai_agent/tools/web_search.py:136 | the result is a contiguous piece of the input, and everything removed before and after it is `str.isspace` whitespace |
| Text.SplitOnCharJoin | ai_agent/tools/web_search.py:136 | joining the line split with the separator gives back the text |
| Text.SplitOnDoubleSpaceJoin | ai_agent/tools/web_search.py:137 | joining the pieces split on double spaces with a double space gives back the line |
| Text.JoinSpaceClean | ai_agent/tools/web_search.py:138 | joining non-empty stripped pieces without double spaces by one space gives a stripped text without double spaces |
| Text.TruncateWithEllipsis | ai_agent/tools/web_search.py:141-142 | text within the limit is unchanged; for a non-negative limit, longer text is its prefix of the limit's length plus "..."; a negative limit drops that many characters from the end (Python slicing, none left when it exceeds the length) and adds "..." |
| Text.LexLeTotal | ai_agent/tools/file_operations.py:199 | Python string order is total |
| Text.LexLeTransitive | ai_agent/tools/file_operations.py:199 | Python string order is transitive |
| Text.LikeContains | ai_agent/memory/conversation.py:225-228 | for a query without wildcards, `s LIKE '%q%'` holds exactly when q occurs in s ignoring ASCII case |
| Conversation.RowsOf | ai_agent/memory/conversation.py:104-108 | exactly the id's rows, in table order, and in timestamp order whenever the table is |
| Conversation.WithoutMessagesOf | ai_agent/memory/conversation.py:168 | exactly the other conversations' rows, keeping timestamp order |
| Conversation.RowsOfWithout | ai_agent/memory/conversation.py:166-168 | deleting one id's messages leaves it none and every other id exactly its rows |
| Conversation.DeleteKeepsOthers | ai_agent/memory/conversation.py:183 | after deleting an id's messages it has none and every other id loads what it loaded before |
| Conversation.DeleteKeepsWellFormed | ai_agent/memory/conversation.py:166-172 | deleting a conversation's messages and row keeps the tables well formed and leaves no row of that id |
| Conversation.RowsOfAppend | ai_agent/memory/conversation.py:77-81 | inserting a row adds it to its own conversation's rows only, at the end |
| Conversation.AddKeepsWellFormed | ai_agent/memory/conversation.py:77-87 | storing a row stamped with the clock, touching its conversation and advancing the clock keeps the tables well formed |
| Conversation.ConversationIdsAppend | ai_agent/memory/conversation.py:52-56 | inserting a conversation row adds exactly its id to the listed ids |
| Conversation.TouchOnlyTarget | ai_agent/memory/conversation.py:84-87 | only the rows with the id change, and in them only `updated_at`, which becomes the new time |
| Conversation.Touch | ai_agent/memory/conversation.py:84-87 | updating `updated_at` keeps the number of rows and the set of ids |
| Conversation.RetitleOnlyTarget | ai_agent/memory/conversation.py:188-192 | only the rows with the id change, and in them only the title and `updated_at` |
| Conversation.Retitle | ai_agent/memory/conversation.py:188-192 | retitling keeps the number of rows and the set of ids |
| Conversation.WithoutConversation | ai_agent/memory/conversation.py:171 | exactly the rows of other ids remain, ids stay unique |
| Conversation.InsertByRecencyMembers | ai_agent/memory/conversation.py:133-136 | inserting keeps every row and adds the new one once |
| Conversation.InsertByRecencyCorrect | ai_agent/memory/conversation.py:133-136 | inserting into a newest-first list gives a newest-first permutation with the new row |
| Conversation.SortByRecencyCorrect | ai_agent/memory/conversation.py:133-136 | the listing order holds every conversation once, newest update first |
| Conversation.Snippet | ai_agent/memory/conversation.py:236 | content of at most 200 characters is kept; longer content becomes its first 200 characters plus "..." |
| Conversation.Distinct | ai_agent/memory/conversation.py:222 | the same contents without repeats |
| Conversation.MatchingContents | ai_agent/memory/conversation.py:224-225 | exactly the contents of the rows where the content or the title matches the pattern |
| Conversation.Paired | ai_agent/memory/conversation.py:222-224 | each content paired with its conversation, and nothing else |
| Conversation.Joined | ai_agent/memory/conversation.py:221-226 | every joined row is a listed conversation with one of its matching contents, and every such pair is joined |
| Conversation.ConcatNewestFirst | ai_agent/memory/conversation.py:226 | one conversation's rows followed by older rows stay newest first |
| Conversation.JoinedNewestFirst | ai_agent/memory/conversation.py:226 | joining conversations taken newest first yields rows newest first |
| Conversation.Limit | ai_agent/memory/conversation.py:227 | a prefix, at most the limit when it is not negative, everything when it is |
| Conversation.SearchRows | ai_agent/memory/conversation.py:221-228 | at most `limit` rows, newest update first, each of a listed conversation with at least one message whose content or title matches |
| Conversation.SearchIsLimitOfAll | ai_agent/memory/conversation.py:216-228 | `LIMIT` only cuts the list: the rows found with a limit are the first `limit` of the rows found without one, all of them when there are no more |
| Conversation.SearchFindsQuery | ai_agent/memory/conversation.py:225-228 | with a wildcard-free query every row found holds the query in its content or title, ignoring ASCII case |
| Conversation.SearchMissesNothing | ai_agent/memory/conversation.py:221-228 | without a limit every stored message of a listed conversation whose content or title matches is found |
| Conversation.CountRole | ai_agent/memory/conversation.py:202-203 | a role count never exceeds the number of messages |
| Conversation.CountRoleAppend | ai_agent/memory/conversation.py:202-203 | the count of a role over two pieces of a history is the sum of their counts |
| Conversation.CountRoleOne | ai_agent/memory/conversation.py:202-203 | one message counts 1 exactly when it has the role, else 0 |
| Conversation.CountRoleIsPositions | ai_agent/memory/conversation.py:202-208 | the role count is exactly the number of positions whose message has that role, the length of the comprehension |
| Conversation.CountWithToolCalls | ai_agent/memory/conversation.py:204 | the tool-call count never exceeds the number of messages |
| Conversation.CountWithToolCallsAppend | ai_agent/memory/conversation.py:204 | the tool-call count over two pieces of a history is the sum of their counts |
| Conversation.CountWithToolCallsOne | ai_agent/memory/conversation.py:204 | one message counts 1 exactly when its tool calls are not empty (Python truthiness of the list) |
| Conversation.CountWithToolCallsIsPositions | ai_agent/memory/conversation.py:204-209 | the tool-call count is exactly the number of positions whose message has non-empty tool calls |
| Conversation.RoleCountsBounded | ai_agent/memory/conversation.py:202-210 | user and assistant messages together are at most all messages |
| Conversation.Summarize | ai_agent/memory/conversation.py:195-214 | not found exactly for an empty history; otherwise the total is the length, the user and assistant counts are `CountRole` of those roles and the tool-call count is `CountWithToolCalls` (each the number of matching positions, by the `IsPositions` lemmas), user plus assistant is at most the total, and the times are the first and last timestamps |
| Conversation.ConversationStore.Open | ai_agent/memory/conversation.py:11-15 | a store over existing tables starts with an empty cache |
| Conversation.ConversationStore.CreateConversation | ai_agent/memory/conversation.py:44-59 | the cache entry becomes []; the row is inserted, with the given title or "Conversation " and the date, exactly when the id is new |
| Conversation.ConversationStore.AddMessage | ai_agent/memory/conversation.py:61-89 | exactly one message is appended to the id's cached list (seeded empty when not cached); a row is stored and `updated_at` bumped exactly when there is content; the store invariant is kept |
| Conversation.ConversationStore.LoadConversationFromDb | ai_agent/memory/conversation.py:99-126 | the id's stored messages in timestamp order, cached only when there is at least one |
| Conversation.ConversationStore.GetConversation | ai_agent/memory/conversation.py:91-97 | the cached list unchanged on a hit, otherwise the stored messages, cached only when non-empty |
| Conversation.ConversationStore.GetConversationList | ai_agent/memory/conversation.py:128-156 | every conversation row exactly once, newest update first, each with the number of its stored messages |
| Conversation.ConversationStore.DeleteConversation | ai_agent/memory/conversation.py:158-174 | cache entry, messages and row are gone; true exactly when a row existed; other conversations keep their messages |
| Conversation.ConversationStore.ClearConversation | ai_agent/memory/conversation.py:176-184 | the cached list becomes [] if present and the stored messages go; the conversation row stays; other conversations keep their messages |
| Conversation.ConversationStore.UpdateConversationTitle | ai_agent/memory/conversation.py:186-193 | the row gets the new title and a new `updated_at`; cache and messages are unchanged |
| Conversation.ConversationStore.GetConversationSummary | ai_agent/memory/conversation.py:195-214 | the summary of what `get_conversation` returns; the cache is unchanged on a hit, and otherwise gains the stored messages exactly when there are some |
| Conversation.ConversationStore.SearchConversations | ai_agent/memory/conversation.py:216-239 | one hit per row found, in row order, with its snippet; the limit defaults to 10; at most the limit, newest first, each of a listed conversation with at least one message |
| Conversation.HitsOf | ai_agent/memory/conversation.py:230-239 | the loop builds one hit per row, in row order |
| Conversation.SeedingMasksStoredRows | ai_agent/memory/conversation.py:63-64 | adding to an uncached id with stored rows reads back only the new message, although the table now holds more; no conversation row appears |
| Conversation.ClearThenDelete | ai_agent/memory/conversation.py:176-184 | after clearing, the conversation is listed with no messages; after deleting, it is not listed |
| Conversation.TwoMessageSummary | ai_agent/test_agent.py:89-104 | a new conversation with a user and an assistant message has a two-message history summarised as 2 total, 1 user, 1 assistant, 0 tool calls |
| AgentCore.ExecuteTool | ai_agent/agent/core.py:104-130 | an unknown name fails with "Tool '<name>' not found", then a call missing a required parameter fails with "Invalid parameters for tool '<name>'", otherwise the executor's outcome |
| AgentCore.ExecutorNotInvoked | ai_agent/agent/core.py:106-118 | for an unknown name or an invalid call the result does not depend on any executor |
| AgentCore.ValidCallReachesExecutor | ai_agent/agent/core.py:120-130 | a valid call returns the executor's result, or a failure whose error starts with "Tool execution failed: " |
| AgentCore.SelectProvider | ai_agent/agent/core.py:160-178 | no route exactly when no client exists; the chosen provider has a client; a "claude" model with Anthropic goes to Anthropic, otherwise OpenAI whenever it exists; the requested model is kept when it names the chosen provider, otherwise that provider's fixed model is used |
| AgentCore.PrefixesExclusive | ai_agent/agent/core.py:165-170 | no model name selects both providers |
| AgentCore.WireOf | ai_agent/agent/core.py:185-194 | system, user and assistant messages have a wire form with the same content; other roles have none |
| AgentCore.Converted | ai_agent/agent/core.py:184-194 | the conversion is no longer than the history and holds no `tool` message |
| AgentCore.ConvertedAppend | ai_agent/agent/core.py:185-194 | converting a concatenation concatenates the conversions, so order is kept |
| AgentCore.OtherRolesDropped | ai_agent/agent/core.py:185-194 | a stored message of another role, such as `tool`, does not reach the provider |
| AgentCore.KnownRolesKept | ai_agent/agent/core.py:185-194 | a history of system, user and assistant messages converts one for one |
| AgentCore.WithDefaultSystem | ai_agent/agent/core.py:196-203 | the messages start with a system message; the default one is prepended exactly when the conversion is empty or does not start with one |
| AgentCore.ResolveRoundTrip | ai_agent/agent/core.py:241-261 | the calls sent back are exactly the provider's calls, and each `tool` message answers the call at its position with that call's dispatch result |
| AgentCore.AnthropicConvertedMembers | ai_agent/agent/core.py:283-289 | a message is sent exactly when it carries the role and content of a user or assistant message of the history; every other role is dropped |
| AgentCore.AnthropicConvertedAppend | ai_agent/agent/core.py:283-289 | conversion goes message by message: converting a concatenation concatenates the conversions, so history order is kept |
| AgentCore.AnthropicOneForOne | ai_agent/agent/core.py:283-289 | a history of only user and assistant messages converts one for one, each message keeping its role and content at its position |
| AgentCore.AnthropicAnswer | ai_agent/agent/core.py:291-306 | a client fault is surfaced; a successful answer has the requested model, content, and no tool calls |
| AgentCore.ReplyOf | ai_agent/agent/core.py:148-158 | a provider fault is surfaced; an answer without content fails with the `NOT NULL` error; otherwise the reply carries the id, the content, the tool calls and the model |
| AgentCore.Without | ai_agent/agent/core.py:96-97 | exactly the other names remain, still distinct |
| AgentCore.WithoutAbsent | ai_agent/agent/core.py:94-98 | removing an absent name changes nothing |
| AgentCore.DistinctSize | ai_agent/agent/core.py:91 | distinct names are as many as their positions |
| AgentCore.RegistrySize | ai_agent/agent/core.py:100-102 | a registry listed once by its insertion order has one entry per listed name |
| AgentCore.SchemasCoverRegistry | ai_agent/agent/core.py:100-102 | one schema per registered tool, the schema of the tool listed at that position, and the schemas name every registered tool and no other name |
| AgentCore.SchemaNamesInOrder | ai_agent/agent/core.py:100-102 | with each tool filed under its own name, the schema at each position names the tool listed there |
| AgentCore.SchemaNamesDistinct | ai_agent/agent/core.py:100-102 | with no name listed twice, no two schemas share a name |
| AgentCore.SchemasNameEveryTool | ai_agent/agent/core.py:100-102 | every registered tool has a schema |
| AgentCore.AppendToolRound | ai_agent/agent/core.py:241-261 | the follow-up messages are the request's messages, the assistant turn with the calls, then one `tool` message per record |
| AgentCore.Agent.constructor | ai_agent/agent/core.py:25-34 | the given name, or the configured one when none is given; no tools yet |
| AgentCore.Agent.RegisterTool | ai_agent/agent/core.py:89-92 | the tool is filed under its name, replacing an earlier one in place; other entries are unchanged |
| AgentCore.Agent.UnregisterTool | ai_agent/agent/core.py:94-98 | the name is removed if present, and nothing changes otherwise |
| AgentCore.Agent.AvailableToolsCoverRegistry | ai_agent/agent/core.py:100-102 | one schema per registered tool, in insertion order, each the schema of its tool; every registered name appears exactly once and no other |
| AgentCore.Agent.ConvertHistory | ai_agent/agent/core.py:182-203 | the request messages are the converted history with the default system message put first when none leads |
| AgentCore.Agent.FirstRequest | ai_agent/agent/core.py:182-213 | the first request carries the requested model and every tool schema, and its messages start with a system message and add at most one to the history |
| AgentCore.Agent.OpenAIAnswer | ai_agent/agent/core.py:180-277 | a fault of the first reply is surfaced; a successful answer has the requested model, and an answer without tool calls has content |
| AgentCore.Agent.RunToolCalls | ai_agent/agent/core.py:222-238 | every provider call is dispatched in provider order, with its id, name and arguments recorded |
| AgentCore.Agent.OpenAIChat | ai_agent/agent/core.py:180-277 | the first request carries the converted history and the tool schemas; a fault is surfaced; text without calls is returned ("" for none); with calls, exactly one follow-up request without tools is sent, carrying the calls and one `tool` message per call, and its content is final |
| AgentCore.Agent.AnthropicChat | ai_agent/agent/core.py:279-306 | the request carries the user and assistant messages; a fault or an empty reply fails; otherwise the first text block is the content |
| AgentCore.Agent.GenerateResponse | ai_agent/agent/core.py:160-178 | the outcome is the routed provider's answer: with the routing of `ProviderAnswerRouted` this is "No AI providers available" without a client, and otherwise that provider's answer with the routed model |
| AgentCore.Agent.ProviderAnswerRouted | ai_agent/agent/core.py:160-178 | without a route the answer is the no-provider fault; otherwise it is the answer of the routed client (which exists) with the routed model, and an Anthropic answer carries no tool calls |
| AgentCore.Agent.Exchange | ai_agent/agent/core.py:137-158 | the reply is `ReplyOf` of the provider's answer to the cached history plus the user message; `Recorded` gives the whole new store: the user row is stored and `updated_at` bumped; a provider fault leaves the cached history ending with the user message; any other answer closes it with the assistant message, whose row is stored and `updated_at` bumped again only when it has content |
| AgentCore.TurnRecorded | ai_agent/agent/core.py:137-158 | the user step followed by the answer step yields exactly the store that `Recorded` describes |
| AgentCore.Agent.RecordUser | ai_agent/agent/core.py:137-143 | one user row is stored, the conversation's `updated_at` is bumped, and the history read back is the cached list (empty when not cached) with the user message appended, which is now the cached list |
| AgentCore.Agent.RecordAnswer | ai_agent/agent/core.py:148-158 | the reply is `ReplyOf` of the answer; an assistant row is stored and `updated_at` bumped exactly on success, with the reply's content and tool calls; any answer from the provider, even without content, is appended to the cached list; a provider fault leaves the whole store unchanged |
| AgentCore.Agent.AnswerTurn | ai_agent/agent/core.py:145-158 | the reply is `ReplyOf` of the provider's answer to the history; on success exactly one assistant row is stored and `updated_at` bumped; any answer from the provider closes the cached history, with or without content; a provider fault leaves cache and clock unchanged; otherwise nothing is stored |
| AgentCore.Agent.Chat | ai_agent/agent/core.py:132-158 | an empty id creates a conversation (ids grow by exactly the fresh id) whose one-message history is answered; a given id keeps the ids and answers the cached history plus the user message; either way the reply is `ReplyOf` of the provider's answer to that history and `Recorded` gives the whole new store (rows, cache, conversation rows, clock) for the fault, no-content and success cases; without a provider the turn fails with the user row stored; a taken fresh id fails with only the cache seeded and the clock advanced |
| AgentCore.Agent.StartConversation | ai_agent/agent/core.py:134-158 | a taken fresh id fails with the `UNIQUE` error, stores nothing and leaves the fresh id's cache entry seeded empty; otherwise the new row is inserted and the turn is answered and `Recorded` from the store just after the insert |

## Left out

- I/O: HTTP requests, HTML parsing, the filesystem and SQLite connections. Each tool is given what these report, and the store keeps its tables as sequences.
- Concurrency: `threading.Lock` and `async`/`await`. Calls are sequential.
- Logging, `get_stats` of both classes, and the one-line delegations `get_conversation_history` and `clear_conversation` of the agent.
- The concrete tools that `__init__` registers and the `settings` module. The constructor takes the name, default model and clients as values and starts with no tools.
- The calculator and date-time tools. They are floating point and foreign date libraries.
- Request parameters that do not affect the agent's logic: `max_tokens`, `temperature` and `tool_choice`.
- WebSearch.Normalise: lines are split on "\n" only; the other line breaks of `splitlines` are not modelled.
- Text.Lower: ASCII case folding only.
- Conversation.ConversationStore.AddMessage: both the cached message and the stored row use the store's counter for their timestamp. The ISO string of `datetime.now()` and the separate `CURRENT_TIMESTAMP` are not modelled. The JSON round trip of `tool_calls` through the table is taken to give back the same records.
- Conversation.ConversationStore.Open: requires that the existing tables already satisfy the store invariant, in particular strictly increasing message timestamps.
- Conversation.ChosenTitle: the date label of the default title is a parameter, not formatted from a clock.
- AgentCore.Agent.OpenAIChat: tool-call arguments arrive as decoded maps. A `json.loads` failure, and an argument named `tool_name` colliding with `execute_tool`'s own parameter, both raise out of the exchange in the source; neither is modelled. The JSON serialisation of results in the `tool` messages is not modelled either.
- AgentCore.ExecuteTool: executors are functions of their arguments. Side effects a tool has outside its result, such as writing a file, are not part of the model.
- FileOperations.ReadFile: the reported path is the given string. `str(Path(file_path))` normalisation is not modelled.
- FileOperations.ListDirectory: the reported directory path is the given string, without `Path` normalisation. `items.sort` is specified by its result (sorted, a permutation), so its stability is not stated.
- Tool arguments: every tool argument is taken at its declared type (`max_length` an integer or absent, `append` and `include_hidden` booleans, paths and urls strings). The source reads them with `kwargs.get` and Python truthiness, so an explicit JSON `null` for `max_length` (which makes `len(text) > None` raise and `WebSearch.Scrape` answer "Web scraping failed: …") or a string such as `"false"` for `append` (truthy) is not modelled; `WebSearch.Scrape`, `FileOperations.WriteFile` and `FileOperations.ListDirectory` apply the typed meaning instead.
- WebSearch.Search: `num_results` is an integer. Other argument types, and exceptions raised inside the loop, are not modelled.
- ToolBase.GetSchema: JSON key order of `properties` is not modelled (a map).
