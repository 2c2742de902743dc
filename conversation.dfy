/** The conversation store of `memory/conversation.py`: an in-memory cache of
    message lists in front of two durable tables, `conversations` and `messages`.

    The SQLite tables are sequences of rows in insertion order. `uuid4()` is a
    caller-supplied id, `datetime.now()` a caller-supplied label for the default
    title, and every write takes its timestamp from one counter, `clock`, that
    advances by one per write. The store invariant requires and keeps
    that message timestamps strictly increase along the table, so
    `ORDER BY timestamp` returns rows in insertion order. */
module Conversation {
  import opened Wrappers
  import opened Text
  import opened ToolBase

  type ConversationId = string

  /** A message as the cache holds it and `get_conversation` returns it. The
      content is optional because a provider reply without text still reaches the cache. */
  datatype Message = Message(role: string, content: Option<string>, toolCalls: seq<ToolCallRecord>, timestamp: nat)

  /** A row of the `conversations` table. */
  datatype ConversationRow = ConversationRow(id: ConversationId, createdAt: nat, updatedAt: nat, title: string)

  /** A row of the `messages` table; `content` is `NOT NULL`. An empty `toolCalls`
      stands for the `NULL` column, which loads back as `[]`. */
  datatype MessageRow = MessageRow(conversationId: ConversationId, role: string, content: string, toolCalls: seq<ToolCallRecord>, timestamp: nat)

  // ---------------------------------------------------------------- the tables

  function ConversationIds(conversations: seq<ConversationRow>): set<ConversationId> {
    set c | c in conversations :: c.id
  }

  /** Inserting a row adds exactly its id. */
  lemma ConversationIdsAppend(conversations: seq<ConversationRow>, row: ConversationRow)
    ensures ConversationIds(conversations + [row]) == ConversationIds(conversations) + {row.id}
  {
    assert forall c :: c in conversations + [row] <==> c in conversations || c == row;
  }

  /** `id` is the table's primary key. */
  predicate UniqueIds(conversations: seq<ConversationRow>) {
    forall i, j :: 0 <= i < j < |conversations| ==> conversations[i].id != conversations[j].id
  }

  predicate TimestampsIncrease(rows: seq<MessageRow>) {
    forall i, j :: 0 <= i < j < |rows| ==> rows[i].timestamp < rows[j].timestamp
  }

  /** What the store keeps true of its tables: message timestamps strictly increase
      and are all in the past, ids are unique, and every conversation was updated
      no earlier than it was created. */
  predicate WellFormedTables(conversations: seq<ConversationRow>, messages: seq<MessageRow>, clock: nat) {
    && TimestampsIncrease(messages)
    && (forall m :: m in messages ==> m.timestamp < clock)
    && UniqueIds(conversations)
    && (forall c :: c in conversations ==> c.createdAt <= c.updatedAt < clock)
  }

  /** `SELECT ... FROM messages WHERE conversation_id = ?`, in table order. */
  function RowsOf(rows: seq<MessageRow>, id: ConversationId): (mine: seq<MessageRow>)
    ensures |mine| <= |rows|
    ensures forall r :: r in mine ==> r in rows && r.conversationId == id
    ensures forall r :: r in rows && r.conversationId == id ==> r in mine
    ensures TimestampsIncrease(rows) ==> TimestampsIncrease(mine)
  {
    if rows == [] then []
    else
      var init, last := rows[..|rows| - 1], rows[|rows| - 1];
      var prefix := RowsOf(init, id);
      assert forall r :: r in rows <==> r in init || r == last;
      if last.conversationId != id then prefix
      else
        var mine := prefix + [last];
        assert TimestampsIncrease(rows) ==> forall r :: r in prefix ==> r.timestamp < last.timestamp;
        mine
  }

  /** `DELETE FROM messages WHERE conversation_id = ?`: the other rows, in order. */
  function WithoutMessagesOf(rows: seq<MessageRow>, id: ConversationId): (rest: seq<MessageRow>)
    ensures forall r :: r in rest <==> r in rows && r.conversationId != id
    ensures TimestampsIncrease(rows) ==> TimestampsIncrease(rest)
  {
    if rows == [] then []
    else
      var init, last := rows[..|rows| - 1], rows[|rows| - 1];
      var prefix := WithoutMessagesOf(init, id);
      assert forall r :: r in rows <==> r in init || r == last;
      if last.conversationId == id then prefix
      else
        assert TimestampsIncrease(rows) ==> forall r :: r in prefix ==> r.timestamp < last.timestamp;
        prefix + [last]
  }

  /** Deleting one conversation's messages leaves every other conversation's rows as they were. */
  lemma {:induction false} RowsOfWithout(rows: seq<MessageRow>, id: ConversationId, other: ConversationId)
    ensures RowsOf(WithoutMessagesOf(rows, id), other) == if other == id then [] else RowsOf(rows, other)
  {
    if rows != [] {
      var init, last := rows[..|rows| - 1], rows[|rows| - 1];
      RowsOfWithout(init, id, other);
      var rest := WithoutMessagesOf(rows, id);
      if last.conversationId != id {
        assert rest[..|rest| - 1] == WithoutMessagesOf(init, id);
      }
    }
  }

  /** After deleting `id`'s messages it has none left, and every other
      conversation loads exactly what it loaded before. */
  lemma DeleteKeepsOthers(rows: seq<MessageRow>, id: ConversationId)
    ensures RowsOf(WithoutMessagesOf(rows, id), id) == []
    ensures forall other :: other != id ==> RowsOf(WithoutMessagesOf(rows, id), other) == RowsOf(rows, other)
  {
    forall other {
      RowsOfWithout(rows, id, other);
    }
  }

  /** Deleting a conversation and its messages keeps the tables well formed and
      leaves no row of that id. */
  lemma DeleteKeepsWellFormed(conversations: seq<ConversationRow>, messages: seq<MessageRow>, clock: nat, id: ConversationId)
    requires WellFormedTables(conversations, messages, clock)
    ensures WellFormedTables(WithoutConversation(conversations, id), WithoutMessagesOf(messages, id), clock)
    ensures id !in ConversationIds(WithoutConversation(conversations, id))
  {
    var rest := WithoutConversation(conversations, id);
    assert forall c :: c in rest ==> c in conversations && c.id != id;
    assert forall m :: m in WithoutMessagesOf(messages, id) ==> m in messages;
  }

  /** Storing a row stamped with the clock, touching its conversation and
      advancing the clock keeps the tables well formed. */
  lemma AddKeepsWellFormed(conversations: seq<ConversationRow>, messages: seq<MessageRow>, clock: nat, row: MessageRow)
    requires WellFormedTables(conversations, messages, clock) && row.timestamp == clock
    ensures WellFormedTables(Touch(conversations, row.conversationId, clock), messages + [row], clock + 1)
    ensures WellFormedTables(conversations, messages, clock + 1)
  {
    var touched := Touch(conversations, row.conversationId, clock);
    TouchOnlyTarget(conversations, row.conversationId, clock);
    forall c | c in touched ensures c.createdAt <= c.updatedAt < clock + 1 {
      var i :| 0 <= i < |touched| && touched[i] == c;
      assert conversations[i] in conversations;
    }
    var all := messages + [row];
    forall i, j | 0 <= i < j < |all| ensures all[i].timestamp < all[j].timestamp {
      assert all[i] == messages[i];
      if j == |messages| {
        assert messages[i] in messages;
      } else {
        assert all[j] == messages[j];
      }
    }
  }

  /** Storing one more row adds it to its own conversation's rows only. */
  lemma RowsOfAppend(rows: seq<MessageRow>, row: MessageRow, id: ConversationId)
    ensures RowsOf(rows + [row], id) == RowsOf(rows, id) + (if row.conversationId == id then [row] else [])
  {
    assert (rows + [row])[..|rows|] == rows;
  }

  /** The message a stored row loads as. */
  function AsMessage(row: MessageRow): Message {
    Message(row.role, Some(row.content), row.toolCalls, row.timestamp)
  }

  function AsMessages(rows: seq<MessageRow>): (ms: seq<Message>)
    ensures |ms| == |rows|
  {
    seq(|rows|, i requires 0 <= i < |rows| => AsMessage(rows[i]))
  }

  /** What `_load_conversation_from_db` returns for `id`. */
  function Loaded(rows: seq<MessageRow>, id: ConversationId): seq<Message> {
    AsMessages(RowsOf(rows, id))
  }

  /** `SELECT COUNT(*) FROM messages WHERE conversation_id = ?`. */
  function MessageCount(rows: seq<MessageRow>, id: ConversationId): nat {
    |RowsOf(rows, id)|
  }

  /** The conversations table after `UPDATE ... SET updated_at = ? WHERE id = ?`. */
  function Touch(conversations: seq<ConversationRow>, id: ConversationId, now: nat): (updated: seq<ConversationRow>)
    ensures |updated| == |conversations|
    ensures ConversationIds(updated) == ConversationIds(conversations)
  {
    var updated := seq(|conversations|, i requires 0 <= i < |conversations| =>
      var c := conversations[i];
      if c.id == id then c.(updatedAt := now) else c);
    assert forall i :: 0 <= i < |conversations| ==> updated[i].id == conversations[i].id;
    assert forall c :: c in conversations ==> exists i :: 0 <= i < |conversations| && conversations[i] == c;
    assert forall c :: c in updated ==> exists i :: 0 <= i < |updated| && updated[i] == c;
    updated
  }

  /** The conversations table after `UPDATE ... SET title = ?, updated_at = ? WHERE id = ?`. */
  function Retitle(conversations: seq<ConversationRow>, id: ConversationId, title: string, now: nat): (updated: seq<ConversationRow>)
    ensures |updated| == |conversations|
    ensures ConversationIds(updated) == ConversationIds(conversations)
  {
    var updated := seq(|conversations|, i requires 0 <= i < |conversations| =>
      var c := conversations[i];
      if c.id == id then c.(title := title, updatedAt := now) else c);
    assert forall i :: 0 <= i < |conversations| ==> updated[i].id == conversations[i].id;
    assert forall c :: c in conversations ==> exists i :: 0 <= i < |conversations| && conversations[i] == c;
    assert forall c :: c in updated ==> exists i :: 0 <= i < |updated| && updated[i] == c;
    updated
  }

  /** Touching changes only the rows with the id, and in them only `updated_at`. */
  lemma TouchOnlyTarget(conversations: seq<ConversationRow>, id: ConversationId, now: nat)
    ensures forall i :: 0 <= i < |conversations| && conversations[i].id != id ==>
      Touch(conversations, id, now)[i] == conversations[i]
    ensures forall i :: 0 <= i < |conversations| && conversations[i].id == id ==>
      var c := Touch(conversations, id, now)[i];
      c.updatedAt == now && c.id == id && c.title == conversations[i].title && c.createdAt == conversations[i].createdAt
  {
  }

  /** Retitling changes only the rows with the id, and in them only the title and `updated_at`. */
  lemma RetitleOnlyTarget(conversations: seq<ConversationRow>, id: ConversationId, title: string, now: nat)
    ensures forall i :: 0 <= i < |conversations| && conversations[i].id != id ==>
      Retitle(conversations, id, title, now)[i] == conversations[i]
    ensures forall i :: 0 <= i < |conversations| && conversations[i].id == id ==>
      var c := Retitle(conversations, id, title, now)[i];
      c.title == title && c.updatedAt == now && c.id == id && c.createdAt == conversations[i].createdAt
  {
  }

  /** `DELETE FROM conversations WHERE id = ?`. */
  function WithoutConversation(conversations: seq<ConversationRow>, id: ConversationId): (rest: seq<ConversationRow>)
    ensures forall c :: c in rest <==> c in conversations && c.id != id
    ensures UniqueIds(conversations) ==> UniqueIds(rest)
  {
    if conversations == [] then []
    else
      var prefix := WithoutConversation(conversations[..|conversations| - 1], id);
      var last := conversations[|conversations| - 1];
      assert forall c :: c in conversations <==> c in conversations[..|conversations| - 1] || c == last;
      if last.id == id then prefix
      else
        assert UniqueIds(conversations) ==> forall c :: c in prefix ==> c.id != last.id;
        prefix + [last]
  }

  const DefaultTitlePrefix := "Conversation "
  /** The `limit` of `search_conversations` when none is given. */
  const DefaultSearchLimit := 10

  /** `title or f"Conversation {now}"`. */
  function ChosenTitle(title: Option<string>, nowLabel: string): string {
    if title.Some? && title.value != "" then title.value else DefaultTitlePrefix + nowLabel
  }

  // ---------------------------------------------------------------- listing order

  /** `ORDER BY updated_at DESC`, ties kept in table order. */
  predicate NewestFirst(conversations: seq<ConversationRow>) {
    forall i, j :: 0 <= i < j < |conversations| ==> conversations[i].updatedAt >= conversations[j].updatedAt
  }

  function InsertByRecency(c: ConversationRow, sorted: seq<ConversationRow>): (r: seq<ConversationRow>)
    ensures |r| == |sorted| + 1
  {
    if sorted == [] || sorted[0].updatedAt <= c.updatedAt then [c] + sorted
    else [sorted[0]] + InsertByRecency(c, sorted[1..])
  }

  /** The order the database returns conversations in, for the listing and for search. */
  function SortByRecency(conversations: seq<ConversationRow>): (sorted: seq<ConversationRow>)
    ensures |sorted| == |conversations|
  {
    if conversations == [] then []
    else InsertByRecency(conversations[0], SortByRecency(conversations[1..]))
  }

  /** Inserting keeps every row and adds `c` once. */
  lemma {:induction false} InsertByRecencyMembers(c: ConversationRow, sorted: seq<ConversationRow>)
    ensures multiset(InsertByRecency(c, sorted)) == multiset(sorted) + multiset{c}
  {
    if sorted != [] && sorted[0].updatedAt > c.updatedAt {
      InsertByRecencyMembers(c, sorted[1..]);
      assert sorted == [sorted[0]] + sorted[1..];
    }
  }

  /** A row no older than any row of a newest-first list can go in front of it. */
  lemma NewestFirstCons(head: ConversationRow, rest: seq<ConversationRow>)
    requires NewestFirst(rest)
    requires forall k :: 0 <= k < |rest| ==> head.updatedAt >= rest[k].updatedAt
    ensures NewestFirst([head] + rest)
  {
    var all := [head] + rest;
    forall i, j | 0 <= i < j < |all| ensures all[i].updatedAt >= all[j].updatedAt {
      assert all[j] == rest[j - 1];
      if i > 0 {
        assert all[i] == rest[i - 1];
      }
    }
  }

  /** Inserting into a newest-first list keeps it newest first. */
  lemma {:induction false} InsertByRecencyCorrect(c: ConversationRow, sorted: seq<ConversationRow>)
    requires NewestFirst(sorted)
    ensures multiset(InsertByRecency(c, sorted)) == multiset(sorted) + multiset{c}
    ensures NewestFirst(InsertByRecency(c, sorted))
  {
    InsertByRecencyMembers(c, sorted);
    if sorted == [] || sorted[0].updatedAt <= c.updatedAt {
      forall k | 0 <= k < |sorted| ensures c.updatedAt >= sorted[k].updatedAt {
        if k > 0 {
          assert sorted[0].updatedAt >= sorted[k].updatedAt;
        }
      }
      NewestFirstCons(c, sorted);
    } else {
      var tail := sorted[1..];
      var rest := InsertByRecency(c, tail);
      InsertByRecencyCorrect(c, tail);
      forall k | 0 <= k < |rest| ensures sorted[0].updatedAt >= rest[k].updatedAt {
        assert rest[k] in multiset(rest);
        if rest[k] != c {
          assert rest[k] in multiset(tail);
          var j :| 0 <= j < |tail| && tail[j] == rest[k];
          assert sorted[j + 1] == rest[k];
        }
      }
      NewestFirstCons(sorted[0], rest);
    }
  }

  /** The listing order holds every conversation exactly once, newest update first. */
  lemma {:induction false} SortByRecencyCorrect(conversations: seq<ConversationRow>)
    ensures multiset(SortByRecency(conversations)) == multiset(conversations)
    ensures NewestFirst(SortByRecency(conversations))
  {
    if conversations != [] {
      SortByRecencyCorrect(conversations[1..]);
      InsertByRecencyCorrect(conversations[0], SortByRecency(conversations[1..]));
      assert conversations == [conversations[0]] + conversations[1..];
    }
  }

  /** One entry of `get_conversation_list`. */
  datatype ConversationInfo = ConversationInfo(id: ConversationId, title: string, createdAt: nat, updatedAt: nat, messageCount: nat)

  function InfoOf(c: ConversationRow, messageCount: nat): ConversationInfo {
    ConversationInfo(c.id, c.title, c.createdAt, c.updatedAt, messageCount)
  }

  /** The row an entry was made from. */
  function RowOf(info: ConversationInfo): ConversationRow {
    ConversationRow(info.id, info.createdAt, info.updatedAt, info.title)
  }

  // ---------------------------------------------------------------- search

  const SnippetLength := 200

  /** `content[:200] + "..." if len(content) > 200 else content`. */
  function Snippet(content: string): (s: string)
    ensures |content| <= SnippetLength ==> s == content
    ensures |content| > SnippetLength ==> s == content[..SnippetLength] + "..." && |s| == SnippetLength + 3
  {
    TruncateWithEllipsis(content, SnippetLength)
  }

  /** The contents without repeats, first occurrence kept (`SELECT DISTINCT`). */
  function Distinct(contents: seq<string>): (d: seq<string>)
    ensures forall x :: x in d <==> x in contents
    ensures forall i, j :: 0 <= i < j < |d| ==> d[i] != d[j]
  {
    if contents == [] then []
    else
      var prefix := Distinct(contents[..|contents| - 1]);
      var last := contents[|contents| - 1];
      assert forall x :: x in contents <==> x in contents[..|contents| - 1] || x == last;
      if last in prefix then prefix else prefix + [last]
  }

  /** The contents of `rows` that match: the content or the title is `LIKE pattern`. */
  function MatchingContents(rows: seq<MessageRow>, title: string, pattern: string): (contents: seq<string>)
    ensures forall x :: x in contents ==> exists r :: r in rows && r.content == x
    ensures forall x :: x in contents ==> LikeMatch(x, pattern) || LikeMatch(title, pattern)
    ensures forall r :: r in rows && (LikeMatch(r.content, pattern) || LikeMatch(title, pattern)) ==> r.content in contents
  {
    if rows == [] then []
    else
      var rest := MatchingContents(rows[1..], title, pattern);
      assert forall r :: r in rows[1..] ==> r in rows;
      if LikeMatch(rows[0].content, pattern) || LikeMatch(title, pattern) then [rows[0].content] + rest else rest
  }

  /** One joined result row: the conversation and one matching message content. */
  datatype JoinedRow = JoinedRow(conversation: ConversationRow, content: string)

  /** One conversation's joined rows: the conversation paired with each content. */
  function Paired(c: ConversationRow, contents: seq<string>): (joined: seq<JoinedRow>)
    ensures forall j :: j in joined ==> j.conversation == c && j.content in contents
    ensures forall x :: x in contents ==> JoinedRow(c, x) in joined
  {
    if contents == [] then [] else [JoinedRow(c, contents[0])] + Paired(c, contents[1..])
  }

  /** The inner join, filtered, `DISTINCT` and ordered: conversation by conversation in
      the given order, each one's matching contents in table order. */
  function Joined(ordered: seq<ConversationRow>, rows: seq<MessageRow>, pattern: string): (joined: seq<JoinedRow>)
    ensures forall j :: j in joined ==> j.conversation in ordered
    ensures forall j :: j in joined ==> j.content in MatchingContents(RowsOf(rows, j.conversation.id), j.conversation.title, pattern)
    ensures forall c, x :: c in ordered && x in MatchingContents(RowsOf(rows, c.id), c.title, pattern) ==> JoinedRow(c, x) in joined
  {
    if ordered == [] then []
    else
      var c := ordered[0];
      var here := Paired(c, Distinct(MatchingContents(RowsOf(rows, c.id), c.title, pattern)));
      var rest := Joined(ordered[1..], rows, pattern);
      assert forall x :: x in ordered[1..] ==> x in ordered;
      here + rest
  }

  /** Joined rows whose conversations never get newer along the sequence. */
  predicate RowsNewestFirst(joined: seq<JoinedRow>) {
    forall i, k :: 0 <= i < k < |joined| ==> joined[i].conversation.updatedAt >= joined[k].conversation.updatedAt
  }

  lemma ConcatNewestFirst(here: seq<JoinedRow>, rest: seq<JoinedRow>, c: ConversationRow)
    requires forall j :: j in here ==> j.conversation == c
    requires forall j :: j in rest ==> c.updatedAt >= j.conversation.updatedAt
    requires RowsNewestFirst(rest)
    ensures RowsNewestFirst(here + rest)
  {
    var joined := here + rest;
    forall i, k | 0 <= i < k < |joined| ensures joined[i].conversation.updatedAt >= joined[k].conversation.updatedAt {
      if k < |here| {
        assert joined[i] in here && joined[k] in here;
      } else if i < |here| {
        assert joined[i] in here && joined[k] == rest[k - |here|];
        assert rest[k - |here|] in rest;
      } else {
        assert joined[i] == rest[i - |here|] && joined[k] == rest[k - |here|];
      }
    }
  }

  /** Joining conversations taken newest first yields rows newest first. */
  lemma {:induction false} JoinedNewestFirst(ordered: seq<ConversationRow>, rows: seq<MessageRow>, pattern: string)
    requires NewestFirst(ordered)
    ensures RowsNewestFirst(Joined(ordered, rows, pattern))
  {
    if ordered != [] {
      var c := ordered[0];
      var here := Paired(c, Distinct(MatchingContents(RowsOf(rows, c.id), c.title, pattern)));
      var rest := Joined(ordered[1..], rows, pattern);
      assert Joined(ordered, rows, pattern) == here + rest;
      JoinedNewestFirst(ordered[1..], rows, pattern);
      forall j | j in rest ensures c.updatedAt >= j.conversation.updatedAt {
        var k :| 0 <= k < |ordered[1..]| && ordered[1..][k] == j.conversation;
        assert ordered[k + 1] == j.conversation;
      }
      ConcatNewestFirst(here, rest, c);
    }
  }

  /** `LIMIT ?`: a negative limit means no limit in SQLite. */
  function Limit<T>(s: seq<T>, limit: int): (r: seq<T>)
    ensures limit >= 0 ==> |r| <= limit
    ensures r <= s
    ensures limit < 0 ==> r == s
  {
    if limit < 0 || |s| <= limit then s else s[..limit]
  }

  /** The rows `search_conversations` reads: at most `limit` (when it is not negative),
      newest update first, each a content of a stored message of a listed
      conversation where the content or the title matches `%query%`. */
  function SearchRows(conversations: seq<ConversationRow>, messages: seq<MessageRow>, query: string, limit: int): (found: seq<JoinedRow>)
    ensures limit >= 0 ==> |found| <= limit
    ensures forall i, k :: 0 <= i < k < |found| ==> found[i].conversation.updatedAt >= found[k].conversation.updatedAt
    ensures forall j :: j in found ==> j.conversation in conversations
    ensures forall j :: j in found ==> MessageCount(messages, j.conversation.id) >= 1
    ensures forall j :: j in found ==> LikeMatch(j.content, "%" + query + "%") || LikeMatch(j.conversation.title, "%" + query + "%")
  {
    var ordered := SortByRecency(conversations);
    SortByRecencyCorrect(conversations);
    assert forall c :: c in ordered ==> c in multiset(ordered);
    var joined := Joined(ordered, messages, "%" + query + "%");
    JoinedNewestFirst(ordered, messages, "%" + query + "%");
    var found := Limit(joined, limit);
    assert forall i :: 0 <= i < |found| ==> found[i] == joined[i];
    assert forall j :: j in found ==> j in joined;
    found
  }

  /** The limit only cuts the list: the rows found with a limit are the first
      `limit` rows of those found without one, and all of them when there are
      no more than `limit`. */
  lemma SearchIsLimitOfAll(conversations: seq<ConversationRow>, messages: seq<MessageRow>, query: string, limit: int)
    ensures var all := SearchRows(conversations, messages, query, -1);
      && SearchRows(conversations, messages, query, limit) == Limit(all, limit)
      && (limit < 0 || |all| <= limit ==> SearchRows(conversations, messages, query, limit) == all)
      && (0 <= limit < |all| ==> SearchRows(conversations, messages, query, limit) == all[..limit])
  {
  }

  /** With a query free of `LIKE` wildcards, every row found holds the query,
      ignoring ASCII case, in its message content or in its conversation's title. */
  lemma SearchFindsQuery(conversations: seq<ConversationRow>, messages: seq<MessageRow>, query: string, limit: int)
    requires IsLiteral(query)
    ensures forall j :: j in SearchRows(conversations, messages, query, limit) ==>
      (exists k :: OccursAt(query, j.content, k)) || (exists k :: OccursAt(query, j.conversation.title, k))
  {
    forall j | j in SearchRows(conversations, messages, query, limit)
      ensures (exists k :: OccursAt(query, j.content, k)) || (exists k :: OccursAt(query, j.conversation.title, k))
    {
      LikeContains(j.content, query);
      LikeContains(j.conversation.title, query);
    }
  }

  /** Without a limit nothing that matches is missed: each stored message of a
      listed conversation whose content or title matches `%query%` is found. */
  lemma SearchMissesNothing(conversations: seq<ConversationRow>, messages: seq<MessageRow>, query: string, c: ConversationRow, m: MessageRow)
    requires c in conversations && m in messages && m.conversationId == c.id
    requires LikeMatch(m.content, "%" + query + "%") || LikeMatch(c.title, "%" + query + "%")
    ensures JoinedRow(c, m.content) in SearchRows(conversations, messages, query, -1)
  {
    var ordered := SortByRecency(conversations);
    SortByRecencyCorrect(conversations);
    assert c in multiset(ordered);
    assert m in RowsOf(messages, c.id);
  }

  // ---------------------------------------------------------------- summary

  function CountRole(messages: seq<Message>, role: string): (n: nat)
    ensures n <= |messages|
  {
    if messages == [] then 0 else (if messages[0].role == role then 1 else 0) + CountRole(messages[1..], role)
  }

  function CountWithToolCalls(messages: seq<Message>): (n: nat)
    ensures n <= |messages|
  {
    if messages == [] then 0 else (if messages[0].toolCalls != [] then 1 else 0) + CountWithToolCalls(messages[1..])
  }

  /** Counting splits over concatenation. */
  lemma {:induction false} CountRoleAppend(a: seq<Message>, b: seq<Message>, role: string)
    ensures CountRole(a + b, role) == CountRole(a, role) + CountRole(b, role)
  {
    if a == [] {
      assert a + b == b;
    } else {
      assert (a + b)[1..] == a[1..] + b;
      CountRoleAppend(a[1..], b, role);
    }
  }

  /** One message counts once exactly when it has the role. */
  lemma CountRoleOne(m: Message, role: string)
    ensures CountRole([m], role) == if m.role == role then 1 else 0
  {
    assert [m][1..] == [];
  }

  /** `len([m for m in messages if m["role"] == role])`: the number of positions
      holding a message with the role. */
  lemma {:induction false} CountRoleIsPositions(messages: seq<Message>, role: string)
    ensures CountRole(messages, role) == |set i | 0 <= i < |messages| && messages[i].role == role|
  {
    if messages != [] {
      var init, last := messages[..|messages| - 1], messages[|messages| - 1];
      assert messages == init + [last];
      CountRoleIsPositions(init, role);
      CountRoleAppend(init, [last], role);
      CountRoleOne(last, role);
      var before := set i | 0 <= i < |init| && init[i].role == role;
      var all := set i | 0 <= i < |messages| && messages[i].role == role;
      if last.role == role {
        assert all == before + {|init|};
      } else {
        assert all == before;
      }
    }
  }

  /** Counting tool-call messages splits over concatenation. */
  lemma {:induction false} CountWithToolCallsAppend(a: seq<Message>, b: seq<Message>)
    ensures CountWithToolCalls(a + b) == CountWithToolCalls(a) + CountWithToolCalls(b)
  {
    if a == [] {
      assert a + b == b;
    } else {
      assert (a + b)[1..] == a[1..] + b;
      CountWithToolCallsAppend(a[1..], b);
    }
  }

  /** One message counts once exactly when its tool calls are not empty. */
  lemma CountWithToolCallsOne(m: Message)
    ensures CountWithToolCalls([m]) == if m.toolCalls != [] then 1 else 0
  {
    assert [m][1..] == [];
  }

  /** `len([m for m in messages if m.get("tool_calls")])`: the number of positions
      holding a message with a non-empty list of tool calls. */
  lemma {:induction false} CountWithToolCallsIsPositions(messages: seq<Message>)
    ensures CountWithToolCalls(messages) == |set i | 0 <= i < |messages| && messages[i].toolCalls != []|
  {
    if messages != [] {
      var init, last := messages[..|messages| - 1], messages[|messages| - 1];
      assert messages == init + [last];
      CountWithToolCallsIsPositions(init);
      CountWithToolCallsAppend(init, [last]);
      CountWithToolCallsOne(last);
      var before := set i | 0 <= i < |init| && init[i].toolCalls != [];
      var all := set i | 0 <= i < |messages| && messages[i].toolCalls != [];
      if last.toolCalls != [] {
        assert all == before + {|init|};
      } else {
        assert all == before;
      }
    }
  }

  /** A message has one role, so user and assistant messages together are at most all messages. */
  lemma {:induction false} RoleCountsBounded(messages: seq<Message>)
    ensures CountRole(messages, "user") + CountRole(messages, "assistant") <= |messages|
  {
    if messages != [] {
      RoleCountsBounded(messages[1..]);
    }
  }

  /** The result of `get_conversation_summary`. */
  datatype Summary =
    | NotFound
    | Summary(
        conversationId: ConversationId,
        totalMessages: nat,
        userMessages: nat,
        assistantMessages: nat,
        toolCallMessages: nat,
        startTime: nat,
        lastMessage: nat)

  /** The summary of a history: the not-found error exactly when it is empty. */
  function Summarize(id: ConversationId, history: seq<Message>): (s: Summary)
    ensures s.NotFound? <==> history == []
    ensures s.Summary? ==> s.conversationId == id && s.totalMessages == |history|
    ensures s.Summary? ==> s.userMessages == CountRole(history, "user") && s.assistantMessages == CountRole(history, "assistant")
    ensures s.Summary? ==> s.toolCallMessages == CountWithToolCalls(history)
    ensures s.Summary? ==> s.userMessages + s.assistantMessages <= s.totalMessages
    ensures s.Summary? ==> s.toolCallMessages <= s.totalMessages
    ensures s.Summary? ==> s.startTime == history[0].timestamp && s.lastMessage == history[|history| - 1].timestamp
  {
    if history == [] then NotFound
    else
      RoleCountsBounded(history);
      Summary(id, |history|, CountRole(history, "user"), CountRole(history, "assistant"),
        CountWithToolCalls(history), history[0].timestamp, history[|history| - 1].timestamp)
  }

  // ---------------------------------------------------------------- the store

  /** `ConversationManager`. */
  class ConversationStore {
    /** `self.conversations`: the in-memory cache. */
    var cache: map<ConversationId, seq<Message>>
    /** The `conversations` table. */
    var conversations: seq<ConversationRow>
    /** The `messages` table. */
    var messages: seq<MessageRow>
    /** The timestamp the next write will carry. */
    var clock: nat

    ghost predicate Valid()
      reads this
    {
      WellFormedTables(conversations, messages, clock)
    }

    /** `ConversationManager(db_path)` over a database whose tables already hold
        these rows (empty on first use): the cache starts empty. */
    constructor Open(conversations: seq<ConversationRow>, messages: seq<MessageRow>, clock: nat)
      requires WellFormedTables(conversations, messages, clock)
      ensures Valid()
      ensures this.cache == map[] && this.conversations == conversations
      ensures this.messages == messages && this.clock == clock
    {
      this.cache := map[];
      this.conversations := conversations;
      this.messages := messages;
      this.clock := clock;
    }

    /** `create_conversation`: seed an empty cached list, then insert the row. An
        id that is already a key makes the insert fail after the cache was seeded. */
    method CreateConversation(id: ConversationId, title: Option<string>, nowLabel: string) returns (ok: bool)
      requires Valid()
      modifies this
      ensures Valid()
      ensures cache == old(cache)[id := []]
      ensures ok <==> id !in ConversationIds(old(conversations))
      ensures ok ==> conversations == old(conversations) + [ConversationRow(id, old(clock), old(clock), ChosenTitle(title, nowLabel))]
      ensures !ok ==> conversations == old(conversations)
      ensures messages == old(messages) && clock == old(clock) + 1
    {
      cache := cache[id := []];
      ok := id !in ConversationIds(conversations);
      if ok {
        var row := ConversationRow(id, clock, clock, ChosenTitle(title, nowLabel));
        assert forall c :: c in conversations ==> c.id != id;
        conversations := conversations + [row];
      }
      clock := clock + 1;
    }

    /** `add_message`: seed an empty cached list when the id is not cached (older
        stored rows are not loaded), append the message to it, then insert the row
        and bump `updated_at`. A message without content is appended to the cache
        but refused by the `NOT NULL` column, so nothing is stored. */
    method AddMessage(id: ConversationId, role: string, content: Option<string>, toolCalls: seq<ToolCallRecord>) returns (stored: bool)
      requires Valid()
      modifies this
      ensures Valid()
      ensures cache == old(cache)[id := (if id in old(cache) then old(cache)[id] else []) + [Message(role, content, toolCalls, old(clock))]]
      ensures stored <==> content.Some?
      ensures stored ==> messages == old(messages) + [MessageRow(id, role, content.value, toolCalls, old(clock))]
      ensures stored ==> conversations == Touch(old(conversations), id, old(clock))
      ensures !stored ==> messages == old(messages) && conversations == old(conversations)
      ensures clock == old(clock) + 1
    {
      if id !in cache {
        cache := cache[id := []];
      }
      var message := Message(role, content, toolCalls, clock);
      cache := cache[id := cache[id] + [message]];
      stored := content.Some?;
      ghost var before, rows, now := conversations, messages, clock;
      if stored {
        AddKeepsWellFormed(before, rows, now, MessageRow(id, role, content.value, toolCalls, now));
        messages := messages + [MessageRow(id, role, content.value, toolCalls, clock)];
        conversations := Touch(conversations, id, clock);
      } else {
        AddKeepsWellFormed(before, rows, now, MessageRow(id, role, "", toolCalls, now));
      }
      clock := clock + 1;
    }

    /** `_load_conversation_from_db`: the id's rows in timestamp order, cached only
        when there is at least one. */
    method LoadConversationFromDb(id: ConversationId) returns (loaded: seq<Message>)
      requires Valid()
      modifies this`cache
      ensures Valid()
      ensures loaded == Loaded(messages, id)
      ensures cache == if loaded == [] then old(cache) else old(cache)[id := loaded]
    {
      var fetched := RowsOf(messages, id);
      loaded := [];
      var i := 0;
      while i < |fetched|
        invariant 0 <= i <= |fetched|
        invariant loaded == AsMessages(fetched[..i])
      {
        loaded := loaded + [AsMessage(fetched[i])];
        i := i + 1;
      }
      assert fetched[..i] == fetched;
      if loaded != [] {
        cache := cache[id := loaded];
      }
    }

    /** `get_conversation`: the cached list on a hit (a value, so callers cannot
        alter the cache through it), otherwise what the database holds. */
    method GetConversation(id: ConversationId) returns (history: seq<Message>)
      requires Valid()
      modifies this`cache
      ensures Valid()
      ensures id in old(cache) ==> history == old(cache)[id] && cache == old(cache)
      ensures id !in old(cache) ==> history == Loaded(messages, id)
      ensures id !in old(cache) ==> cache == if history == [] then old(cache) else old(cache)[id := history]
    {
      if id in cache {
        return cache[id];
      }
      history := LoadConversationFromDb(id);
    }

    /** `get_conversation_list`: every conversation row once, newest update first,
        with the number of its stored messages. */
    method GetConversationList() returns (list: seq<ConversationInfo>)
      requires Valid()
      ensures |list| == |conversations|
      ensures multiset(seq(|list|, i requires 0 <= i < |list| => RowOf(list[i]))) == multiset(conversations)
      ensures forall i, j :: 0 <= i < j < |list| ==> list[i].updatedAt >= list[j].updatedAt
      ensures forall i :: 0 <= i < |list| ==> list[i].messageCount == MessageCount(messages, list[i].id)
    {
      var ordered := SortByRecency(conversations);
      SortByRecencyCorrect(conversations);
      list := [];
      var i := 0;
      while i < |ordered|
        invariant 0 <= i <= |ordered|
        invariant |list| == i
        invariant forall k :: 0 <= k < i ==> list[k] == InfoOf(ordered[k], MessageCount(messages, ordered[k].id))
      {
        list := list + [InfoOf(ordered[i], MessageCount(messages, ordered[i].id))];
        i := i + 1;
      }
      assert seq(|list|, i requires 0 <= i < |list| => RowOf(list[i])) == ordered;
    }

    /** `delete_conversation`: drop the cache entry, the messages and the row;
        report whether a row was deleted. */
    method DeleteConversation(id: ConversationId) returns (existed: bool)
      requires Valid()
      modifies this
      ensures Valid()
      ensures existed <==> id in ConversationIds(old(conversations))
      ensures cache == old(cache) - {id}
      ensures messages == WithoutMessagesOf(old(messages), id)
      ensures conversations == WithoutConversation(old(conversations), id)
      ensures id !in ConversationIds(conversations) && RowsOf(messages, id) == []
      ensures forall other :: other != id ==> RowsOf(messages, other) == RowsOf(old(messages), other)
      ensures clock == old(clock)
    {
      existed := id in ConversationIds(conversations);
      ghost var before, rows, now := conversations, messages, clock;
      DeleteKeepsOthers(rows, id);
      DeleteKeepsWellFormed(before, rows, now, id);
      cache, messages, conversations := cache - {id}, WithoutMessagesOf(messages, id), WithoutConversation(conversations, id);
    }

    /** `clear_conversation`: empty the cached list if there is one and delete the
        stored messages; the conversation row, its title and dates stay. */
    method ClearConversation(id: ConversationId)
      requires Valid()
      modifies this
      ensures Valid()
      ensures cache == if id in old(cache) then old(cache)[id := []] else old(cache)
      ensures messages == WithoutMessagesOf(old(messages), id)
      ensures conversations == old(conversations)
      ensures RowsOf(messages, id) == []
      ensures forall other :: other != id ==> RowsOf(messages, other) == RowsOf(old(messages), other)
      ensures clock == old(clock)
    {
      if id in cache {
        cache := cache[id := []];
      }
      DeleteKeepsOthers(messages, id);
      messages := WithoutMessagesOf(messages, id);
    }

    /** `update_conversation_title`: retitle the row (if any) and bump `updated_at`. */
    method UpdateConversationTitle(id: ConversationId, title: string)
      requires Valid()
      modifies this
      ensures Valid()
      ensures conversations == Retitle(old(conversations), id, title, old(clock))
      ensures cache == old(cache) && messages == old(messages)
      ensures clock == old(clock) + 1
    {
      conversations := Retitle(conversations, id, title, clock);
      clock := clock + 1;
    }

    /** `get_conversation_summary`: summarise what `get_conversation` returns. */
    method GetConversationSummary(id: ConversationId) returns (s: Summary)
      requires Valid()
      modifies this`cache
      ensures Valid()
      ensures s == Summarize(id, if id in old(cache) then old(cache)[id] else Loaded(messages, id))
      ensures id in old(cache) ==> cache == old(cache)
      ensures id !in old(cache) ==> cache == if Loaded(messages, id) == [] then old(cache) else old(cache)[id := Loaded(messages, id)]
    {
      var history := GetConversation(id);
      s := Summarize(id, history);
    }

    /** `search_conversations`: one hit per row the query returns, its content cut to a snippet. */
    method SearchConversations(query: string, limitArg: Option<int>) returns (hits: seq<SearchHit>)
      requires Valid()
      ensures var found := SearchRows(conversations, messages, query, limitArg.GetOr(DefaultSearchLimit));
        |hits| == |found| && forall i :: 0 <= i < |hits| ==> hits[i] == HitOf(found[i])
      ensures limitArg.None? ==> |hits| <= DefaultSearchLimit
      ensures limitArg.Some? && limitArg.value >= 0 ==> |hits| <= limitArg.value
      ensures forall i, j :: 0 <= i < j < |hits| ==> hits[i].updatedAt >= hits[j].updatedAt
      ensures forall i :: 0 <= i < |hits| ==> hits[i].conversationId in ConversationIds(conversations)
      ensures forall i :: 0 <= i < |hits| ==> MessageCount(messages, hits[i].conversationId) >= 1
    {
      var limit := limitArg.GetOr(DefaultSearchLimit);
      var found := SearchRows(conversations, messages, query, limit);
      hits := HitsOf(found);
      forall k | 0 <= k < |hits|
        ensures hits[k].conversationId in ConversationIds(conversations)
        ensures MessageCount(messages, hits[k].conversationId) >= 1
      {
        assert found[k] in found;
      }
      assert |hits| == |found|;
    }
  }

  /** The result list of `search_conversations`: one hit per row, in row order. */
  method HitsOf(found: seq<JoinedRow>) returns (hits: seq<SearchHit>)
    ensures |hits| == |found|
    ensures forall i :: 0 <= i < |hits| ==> hits[i] == HitOf(found[i])
  {
    hits := [];
    var i := 0;
    while i < |found|
      invariant 0 <= i <= |found|
      invariant |hits| == i
      invariant forall k :: 0 <= k < i ==> hits[k] == HitOf(found[k])
    {
      hits := hits + [HitOf(found[i])];
      i := i + 1;
    }
  }

  /** One entry of `search_conversations`. */
  datatype SearchHit = SearchHit(conversationId: ConversationId, title: string, updatedAt: nat, contentSnippet: string)

  function HitOf(row: JoinedRow): SearchHit {
    SearchHit(row.conversation.id, row.conversation.title, row.conversation.updatedAt, Snippet(row.content))
  }

  // ---------------------------------------------------------------- how the calls combine

  /** Lazy seeding masks stored rows: a message added under an id that is not
      cached starts a fresh cached list, so reading the conversation back returns
      only that message although the table now holds the older rows as well. No
      conversation row is created for the id. */
  method SeedingMasksStoredRows(store: ConversationStore, id: ConversationId, role: string, text: string)
    returns (history: seq<Message>)
    requires store.Valid()
    requires id !in store.cache && MessageCount(store.messages, id) >= 1
    modifies store
    ensures store.Valid()
    ensures history == [Message(role, Some(text), [], old(store.clock))]
    ensures MessageCount(store.messages, id) == MessageCount(old(store.messages), id) + 1 >= 2
    ensures id in ConversationIds(store.conversations) <==> id in ConversationIds(old(store.conversations))
  {
    var stored := store.AddMessage(id, role, Some(text), []);
    RowsOfAppend(old(store.messages), MessageRow(id, role, text, [], old(store.clock)), id);
    history := store.GetConversation(id);
  }

  /** Clearing keeps the conversation listed with no messages; deleting removes it. */
  method ClearThenDelete(store: ConversationStore, id: ConversationId)
    returns (afterClear: seq<ConversationInfo>, existed: bool, afterDelete: seq<ConversationInfo>)
    requires store.Valid() && id in ConversationIds(store.conversations)
    modifies store
    ensures exists i :: 0 <= i < |afterClear| && afterClear[i].id == id && afterClear[i].messageCount == 0
    ensures existed
    ensures forall i :: 0 <= i < |afterDelete| ==> afterDelete[i].id != id
  {
    store.ClearConversation(id);
    afterClear := store.GetConversationList();
    var c :| c in store.conversations && c.id == id;
    var rows := seq(|afterClear|, i requires 0 <= i < |afterClear| => RowOf(afterClear[i]));
    assert c in multiset(rows);
    var i :| 0 <= i < |rows| && rows[i] == c;
    assert afterClear[i].id == id;
    existed := store.DeleteConversation(id);
    afterDelete := store.GetConversationList();
    var after := seq(|afterDelete|, i requires 0 <= i < |afterDelete| => RowOf(afterDelete[i]));
    forall k | 0 <= k < |afterDelete| ensures afterDelete[k].id != id {
      assert after[k] in multiset(store.conversations);
    }
  }

  /** A new conversation with one user and one assistant message has a
      two-message history and a summary counting one of each. */
  method TwoMessageSummary(store: ConversationStore, id: ConversationId, nowLabel: string)
    returns (history: seq<Message>, summary: Summary)
    requires store.Valid() && id !in ConversationIds(store.conversations)
    modifies store
    ensures |history| == 2
    ensures summary == Summary(id, 2, 1, 1, 0, old(store.clock) + 1, old(store.clock) + 2)
  {
    var created := store.CreateConversation(id, None, nowLabel);
    var first := store.AddMessage(id, "user", Some("hello"), []);
    var second := store.AddMessage(id, "assistant", Some("hi"), []);
    history := store.GetConversation(id);
    summary := store.GetConversationSummary(id);
    assert history[1..][1..] == [];
    assert CountRole(history, "user") == 1 + CountRole(history[1..], "user") == 1;
    assert CountRole(history, "assistant") == CountRole(history[1..], "assistant") == 1;
    assert CountWithToolCalls(history) == CountWithToolCalls(history[1..]) == 0;
  }
}
