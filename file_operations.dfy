/** The file tools of `tools/file_operations.py`. The filesystem is not modelled:
    each tool receives what the filesystem reports for the requested path (a
    `FileView`, a `WriteEffect` or a `DirView`) and the model covers the argument
    guards, the error messages and the post-processing the tools do themselves. */
module FileOperations {
  import opened Wrappers
  import opened Text
  import opened ToolBase

  // ---------------------------------------------------------------- declarations

  const ReadFileParameters: seq<ToolParameter> := [
    Parameter("file_path", "string", "Path to the file to read"),
    OptionalParameter("encoding", "string", "File encoding (default: utf-8)", Str("utf-8"))
  ]

  const WriteFileParameters: seq<ToolParameter> := [
    Parameter("file_path", "string", "Path to the file to write"),
    Parameter("content", "string", "Content to write to the file"),
    OptionalParameter("encoding", "string", "File encoding (default: utf-8)", Str("utf-8")),
    OptionalParameter("append", "boolean", "Whether to append to file instead of overwriting", Bool(false))
  ]

  const ListDirectoryParameters: seq<ToolParameter> := [
    Parameter("directory_path", "string", "Path to the directory to list"),
    OptionalParameter("include_hidden", "boolean", "Whether to include hidden files", Bool(false))
  ]

  const DefaultEncoding := "utf-8"

  /** Validation of the three file tools only asks for the keys of their
      mandatory parameters; an empty path passes it and is caught by the tool. */
  lemma FileToolValidation(args: Args)
    ensures ValidateParameters(ReadFileParameters, args) <==> "file_path" in args
    ensures ValidateParameters(WriteFileParameters, args) <==> "file_path" in args && "content" in args
    ensures ValidateParameters(ListDirectoryParameters, args) <==> "directory_path" in args
  {
    assert ReadFileParameters[0].required && !ReadFileParameters[1].required;
    assert WriteFileParameters[0].required && WriteFileParameters[1].required;
    assert !WriteFileParameters[2].required && !WriteFileParameters[3].required;
    assert ListDirectoryParameters[0].required && !ListDirectoryParameters[1].required;
  }

  /** Python truthiness of an optional string argument. */
  predicate IsGiven(s: Option<string>) {
    s.Some? && s.value != ""
  }

  // ---------------------------------------------------------------- read_file

  /** What the filesystem reports for the path to read. */
  datatype FileView = NoSuchFile | NotAFile | ReadFailed(reason: string) | FileText(text: string)

  /** The result of `ReadFileTool.execute`; `ReadOk` carries the result's data dict. */
  datatype ReadOutcome =
    | ReadError(error: string)
    | ReadOk(filePath: string, content: string, size: nat, encoding: string)

  /** `ReadFileTool.execute`. */
  function ReadFile(filePath: Option<string>, encoding: Option<string>, file: FileView): (r: ReadOutcome)
    ensures !IsGiven(filePath) ==> r == ReadError("file_path parameter is required")
    ensures r.ReadOk? <==> IsGiven(filePath) && file.FileText?
    ensures r.ReadOk? ==> r.filePath == filePath.value && r.content == file.text && r.size == |r.content|
    ensures r.ReadOk? ==> r.encoding == encoding.GetOr(DefaultEncoding)
    ensures IsGiven(filePath) && file.NoSuchFile? ==> r == ReadError("File does not exist: " + filePath.value)
    ensures IsGiven(filePath) && file.NotAFile? ==> r == ReadError("Path is not a file: " + filePath.value)
    ensures IsGiven(filePath) && file.ReadFailed? ==> r == ReadError("Failed to read file: " + file.reason)
  {
    if !IsGiven(filePath) then ReadError("file_path parameter is required")
    else
      match file
      case NoSuchFile => ReadError("File does not exist: " + filePath.value)
      case NotAFile => ReadError("Path is not a file: " + filePath.value)
      case ReadFailed(reason) => ReadError("Failed to read file: " + reason)
      case FileText(text) => ReadOk(filePath.value, text, |text|, encoding.GetOr(DefaultEncoding))
  }

  // ---------------------------------------------------------------- write_file

  /** What creating the parent directories, encoding and writing reports:
      the encoded byte count, or the exception's message. */
  datatype WriteEffect = Written(encodedBytes: nat) | WriteFailed(reason: string)

  /** The result of `WriteFileTool.execute`. */
  datatype WriteOutcome =
    | WriteError(error: string)
    | WriteOk(filePath: string, bytesWritten: nat, mode: string, encoding: string)

  const WriteGuardError := "file_path and content parameters are required"

  /** `WriteFileTool.execute`: a missing or empty path, or a missing content,
      is refused; empty content is written. */
  function WriteFile(filePath: Option<string>, content: Option<string>, encoding: Option<string>, append: bool, effect: WriteEffect): (r: WriteOutcome)
    ensures !IsGiven(filePath) || content.None? ==> r == WriteError(WriteGuardError)
    ensures r.WriteOk? <==> IsGiven(filePath) && content.Some? && effect.Written?
    ensures content == Some("") && IsGiven(filePath) && effect.Written? ==> r.WriteOk?
    ensures r.WriteOk? ==> r.filePath == filePath.value && r.bytesWritten == effect.encodedBytes
    ensures r.WriteOk? ==> (r.mode == "append" <==> append) && (r.mode == "write" <==> !append)
    ensures r.WriteOk? ==> r.encoding == encoding.GetOr(DefaultEncoding)
    ensures IsGiven(filePath) && content.Some? && effect.WriteFailed? ==> r == WriteError("Failed to write file: " + effect.reason)
  {
    if !IsGiven(filePath) || content.None? then WriteError(WriteGuardError)
    else
      match effect
      case WriteFailed(reason) => WriteError("Failed to write file: " + reason)
      case Written(n) => WriteOk(filePath.value, n, if append then "append" else "write", encoding.GetOr(DefaultEncoding))
  }

  // ---------------------------------------------------------------- list_directory

  datatype EntryKind = DirectoryEntry | RegularFile | OtherEntry

  /** One entry produced by `iterdir()`; `size` is `st_size`, read only for regular files. */
  datatype Entry = Entry(name: string, path: string, kind: EntryKind, size: nat)

  /** What the filesystem reports for the directory to list. */
  datatype DirView = NoSuchDirectory | NotADirectory | ListFailed(reason: string) | Listing(entries: seq<Entry>)

  datatype ItemType = Directory | File

  /** One element of the result's `items`. */
  datatype Item = Item(name: string, path: string, itemType: ItemType, size: Option<nat>)

  /** The result of `ListDirectoryTool.execute`. */
  datatype ListOutcome =
    | ListError(error: string)
    | Listed(directoryPath: string, items: seq<Item>, totalCount: nat)

  predicate IsHidden(name: string) {
    "." <= name
  }

  /** The item for an entry: `directory` exactly for directories, a size exactly for regular files. */
  function ItemOf(e: Entry): Item {
    Item(
      e.name,
      e.path,
      if e.kind == DirectoryEntry then Directory else File,
      if e.kind == RegularFile then Some(e.size) else None)
  }

  /** Whether the filtering loop keeps entry `e`: hidden entries only when asked for. */
  predicate Keeps(e: Entry, includeHidden: bool) {
    includeHidden || !IsHidden(e.name)
  }

  /** The items the filtering loop keeps, in `iterdir()` order. */
  function Kept(entries: seq<Entry>, includeHidden: bool): (items: seq<Item>)
    ensures |items| <= |entries|
    ensures includeHidden ==> |items| == |entries|
  {
    if entries == [] then []
    else
      var init, last := entries[..|entries| - 1], entries[|entries| - 1];
      Kept(init, includeHidden) + (if Keeps(last, includeHidden) then [ItemOf(last)] else [])
  }

  /** The kept items are exactly the items of the kept entries: every entry the
      filter keeps is listed and nothing else is. */
  lemma {:induction false} KeptMembers(entries: seq<Entry>, includeHidden: bool)
    ensures forall x :: x in Kept(entries, includeHidden) <==>
      exists e :: e in entries && Keeps(e, includeHidden) && x == ItemOf(e)
  {
    if entries != [] {
      var init, last := entries[..|entries| - 1], entries[|entries| - 1];
      KeptMembers(init, includeHidden);
      assert entries == init + [last];
    }
  }

  /** No kept item is hidden unless hidden entries were asked for, and no
      directory carries a size. */
  lemma KeptItemsShape(entries: seq<Entry>, includeHidden: bool)
    ensures var items := Kept(entries, includeHidden);
      && (!includeHidden ==> forall i :: 0 <= i < |items| ==> !IsHidden(items[i].name))
      && (forall i :: 0 <= i < |items| && items[i].itemType == Directory ==> items[i].size.None?)
  {
    var items := Kept(entries, includeHidden);
    KeptMembers(entries, includeHidden);
    forall i | 0 <= i < |items|
      ensures !includeHidden ==> !IsHidden(items[i].name)
      ensures items[i].itemType == Directory ==> items[i].size.None?
    {
      assert items[i] in items;
    }
  }

  /** Filtering works entry by entry: the items kept from two runs of entries are
      the items kept from the first followed by those kept from the second, so
      the kept items keep the `iterdir()` order. */
  lemma {:induction false} KeptAppend(front: seq<Entry>, back: seq<Entry>, includeHidden: bool)
    ensures Kept(front + back, includeHidden) == Kept(front, includeHidden) + Kept(back, includeHidden)
  {
    if back == [] {
      assert front + back == front;
    } else {
      var init, last := back[..|back| - 1], back[|back| - 1];
      var whole := front + back;
      assert whole[..|whole| - 1] == front + init && whole[|whole| - 1] == last;
      KeptAppend(front, init, includeHidden);
    }
  }

  /** The sort key `(type != 'directory', name.lower())`, compared as Python compares tuples. */
  predicate KeyLe(a: Item, b: Item) {
    (a.itemType == Directory && b.itemType == File)
    || (a.itemType == b.itemType && LexLe(Lower(a.name), Lower(b.name)))
  }

  lemma KeyLeTotal(a: Item, b: Item)
    ensures KeyLe(a, b) || KeyLe(b, a)
  {
    LexLeTotal(Lower(a.name), Lower(b.name));
  }

  lemma KeyLeTransitive(a: Item, b: Item, c: Item)
    requires KeyLe(a, b) && KeyLe(b, c)
    ensures KeyLe(a, c)
  {
    if a.itemType == b.itemType == c.itemType {
      LexLeTransitive(Lower(a.name), Lower(b.name), Lower(c.name));
    }
  }

  predicate SortedByKey(items: seq<Item>) {
    forall i, j :: 0 <= i < j < |items| ==> KeyLe(items[i], items[j])
  }

  /** Place `x` before the first element whose key is not smaller. */
  function Insert(x: Item, sorted: seq<Item>): seq<Item> {
    if sorted == [] || KeyLe(x, sorted[0]) then [x] + sorted
    else [sorted[0]] + Insert(x, sorted[1..])
  }

  /** `items.sort(key=...)`: the library sort, modelled as an insertion sort. */
  function SortItems(items: seq<Item>): seq<Item> {
    if items == [] then [] else Insert(items[0], SortItems(items[1..]))
  }

  /** Inserting keeps every item and adds `x` once. */
  lemma {:induction false} InsertMembers(x: Item, sorted: seq<Item>)
    ensures multiset(Insert(x, sorted)) == multiset(sorted) + multiset{x}
  {
    if sorted != [] && !KeyLe(x, sorted[0]) {
      InsertMembers(x, sorted[1..]);
      assert sorted == [sorted[0]] + sorted[1..];
    }
  }

  /** An item whose key is not above any key of a sorted list can go in front of it. */
  lemma SortedCons(head: Item, rest: seq<Item>)
    requires SortedByKey(rest)
    requires forall k :: 0 <= k < |rest| ==> KeyLe(head, rest[k])
    ensures SortedByKey([head] + rest)
  {
    var all := [head] + rest;
    forall i, j | 0 <= i < j < |all| ensures KeyLe(all[i], all[j]) {
      assert all[j] == rest[j - 1];
      if i > 0 {
        assert all[i] == rest[i - 1];
      }
    }
  }

  lemma {:induction false} InsertCorrect(x: Item, sorted: seq<Item>)
    requires SortedByKey(sorted)
    ensures multiset(Insert(x, sorted)) == multiset(sorted) + multiset{x}
    ensures SortedByKey(Insert(x, sorted))
  {
    InsertMembers(x, sorted);
    if sorted == [] || KeyLe(x, sorted[0]) {
      forall k | 0 <= k < |sorted| ensures KeyLe(x, sorted[k]) {
        if k > 0 {
          KeyLeTransitive(x, sorted[0], sorted[k]);
        }
      }
      SortedCons(x, sorted);
    } else {
      var tail := sorted[1..];
      var rest := Insert(x, tail);
      InsertCorrect(x, tail);
      KeyLeTotal(x, sorted[0]);
      forall k | 0 <= k < |rest| ensures KeyLe(sorted[0], rest[k]) {
        assert rest[k] in multiset(rest);
        if rest[k] != x {
          assert rest[k] in multiset(tail);
          var j :| 0 <= j < |tail| && tail[j] == rest[k];
          assert sorted[j + 1] == rest[k];
        }
      }
      SortedCons(sorted[0], rest);
    }
  }

  /** The sorted items are a permutation of the input with every directory before
      every file and names non-decreasing, ignoring ASCII case, within each group. */
  lemma {:induction false} SortItemsCorrect(items: seq<Item>)
    ensures multiset(SortItems(items)) == multiset(items)
    ensures SortedByKey(SortItems(items))
  {
    if items != [] {
      SortItemsCorrect(items[1..]);
      InsertCorrect(items[0], SortItems(items[1..]));
      assert items == [items[0]] + items[1..];
    }
  }

  /** Sorting keeps the number of items, and every sorted item is one of the input. */
  lemma SortItemsMembers(items: seq<Item>)
    ensures |SortItems(items)| == |items|
    ensures forall k :: 0 <= k < |SortItems(items)| ==> SortItems(items)[k] in items
  {
    var sorted := SortItems(items);
    SortItemsCorrect(items);
    assert |sorted| == |multiset(sorted)| == |multiset(items)| == |items|;
    forall k | 0 <= k < |sorted| ensures sorted[k] in items {
      assert sorted[k] in multiset(items);
    }
  }

  /** The sorted listing keeps everything `Kept` promises: the same items, none
      hidden unless asked for, and no size on a directory. */
  lemma SortedListing(entries: seq<Entry>, includeHidden: bool)
    ensures var items := SortItems(Kept(entries, includeHidden));
      && multiset(items) == multiset(Kept(entries, includeHidden))
      && SortedByKey(items)
      && (!includeHidden ==> forall i :: 0 <= i < |items| ==> !IsHidden(items[i].name))
      && (includeHidden ==> |items| == |entries|)
      && (forall i :: 0 <= i < |items| && items[i].itemType == Directory ==> items[i].size.None?)
  {
    var kept := Kept(entries, includeHidden);
    SortItemsCorrect(kept);
    SortItemsMembers(kept);
    KeptItemsShape(entries, includeHidden);
    var items := SortItems(kept);
    forall i | 0 <= i < |items|
      ensures !includeHidden ==> !IsHidden(items[i].name)
      ensures items[i].itemType == Directory ==> items[i].size.None?
    {
      var j :| 0 <= j < |kept| && kept[j] == items[i];
    }
  }

  /** The filtering loop of `ListDirectoryTool.execute`, over the entries in `iterdir()` order. */
  method KeptItems(entries: seq<Entry>, includeHidden: bool) returns (items: seq<Item>)
    ensures items == Kept(entries, includeHidden)
  {
    items := [];
    var i := 0;
    while i < |entries|
      invariant 0 <= i <= |entries|
      invariant items == Kept(entries[..i], includeHidden)
    {
      var entry := entries[i];
      assert entries[..i + 1][..i] == entries[..i];
      if Keeps(entry, includeHidden) {
        items := items + [ItemOf(entry)];
      }
      i := i + 1;
    }
    assert entries[..i] == entries;
  }

  /** `ListDirectoryTool.execute`. */
  method ListDirectory(directoryPath: Option<string>, includeHidden: bool, dir: DirView) returns (r: ListOutcome)
    ensures !IsGiven(directoryPath) ==> r == ListError("directory_path parameter is required")
    ensures IsGiven(directoryPath) && dir.NoSuchDirectory? ==> r == ListError("Directory does not exist: " + directoryPath.value)
    ensures IsGiven(directoryPath) && dir.NotADirectory? ==> r == ListError("Path is not a directory: " + directoryPath.value)
    ensures IsGiven(directoryPath) && dir.ListFailed? ==> r == ListError("Failed to list directory: " + dir.reason)
    ensures r.Listed? <==> IsGiven(directoryPath) && dir.Listing?
    ensures r.Listed? ==> r.directoryPath == directoryPath.value && r.totalCount == |r.items|
    ensures r.Listed? ==> multiset(r.items) == multiset(Kept(dir.entries, includeHidden))
    ensures r.Listed? ==> SortedByKey(r.items)
    ensures r.Listed? && !includeHidden ==> forall i :: 0 <= i < |r.items| ==> !IsHidden(r.items[i].name)
    ensures r.Listed? && includeHidden ==> |r.items| == |dir.entries|
    ensures r.Listed? ==> forall i :: 0 <= i < |r.items| && r.items[i].itemType == Directory ==> r.items[i].size.None?
  {
    if !IsGiven(directoryPath) {
      return ListError("directory_path parameter is required");
    }
    match dir {
      case NoSuchDirectory => return ListError("Directory does not exist: " + directoryPath.value);
      case NotADirectory => return ListError("Path is not a directory: " + directoryPath.value);
      case ListFailed(reason) => return ListError("Failed to list directory: " + reason);
      case Listing(entries) =>
        var items := KeptItems(entries, includeHidden);
        items := SortItems(items);
        SortedListing(entries, includeHidden);
        r := Listed(directoryPath.value, items, |items|);
    }
  }
}
