/** The aggregation of LLM-as-judge results: judge files are read (a file that cannot be read
    or parsed, or holds only whitespace, is skipped), and the results of the three versioned
    data ids are merged into one row per instance id, with counters of the instances that
    carry each data id. */
module AggregateResults {
  import opened Wrappers
  import opened Text
  import Ordering
  import OrderedDict
  import Hallucination

  const BigQuestionsVersion: nat := 7
  const ActionCategoriesVersion: nat := 3
  const HallucinationVersion: nat := 17

  const BigQuestionsDataId: string := "big_questions_v" + NatToString(BigQuestionsVersion)
  const ActionCategoriesDataId: string := "action_categories_v" + NatToString(ActionCategoriesVersion)
  const HallucinationDataId: string := "hallucination_v" + NatToString(HallucinationVersion)

  /** The data ids whose results are merged, in the order the aggregation tests them. */
  const AllowedDataIds: seq<string> := [ActionCategoriesDataId, BigQuestionsDataId, HallucinationDataId]

  /** The three data ids are the versioned names, the hallucination one is the judge's own data
      id, and no two coincide. */
  lemma DataIds()
    ensures BigQuestionsDataId == "big_questions_v7"
    ensures ActionCategoriesDataId == "action_categories_v3"
    ensures HallucinationDataId == "hallucination_v17"
    ensures HallucinationDataId == Hallucination.DataId(HallucinationVersion)
    ensures BigQuestionsDataId != ActionCategoriesDataId && BigQuestionsDataId != HallucinationDataId
    ensures ActionCategoriesDataId != HallucinationDataId
  {
    assert NatToString(7) == "7";
    assert NatToString(3) == "3";
    assert NatToString(1) == "1";
    assert NatToString(17) == NatToString(1) + NatToString(7);
    assert BigQuestionsDataId[0] != ActionCategoriesDataId[0];
    assert BigQuestionsDataId[0] != HallucinationDataId[0];
    assert ActionCategoriesDataId[0] != HallucinationDataId[0];
  }

  // ---------------------------------------------------------------- JSON values

  datatype Json =
    | JNull
    | JBool(b: bool)
    | JNum(n: int)
    | JStr(s: string)
    | JList(items: seq<Json>)
    | JObj(fields: seq<(string, Json)>)

  /** Python truthiness of a decoded JSON value. */
  predicate Truthy(j: Json) {
    match j
    case JNull => false
    case JBool(b) => b
    case JNum(n) => n != 0
    case JStr(s) => s != []
    case JList(xs) => xs != []
    case JObj(fs) => fs != []
  }

  /** `d.get(key, default)` */
  function GetOr(fields: seq<(string, Json)>, key: string, default: Json): Json {
    match OrderedDict.Get(fields, key)
    case Some(v) => v
    case None => default
  }

  // ---------------------------------------------------------------- reading a judge file

  /** The content of a judge file: for each data id, the data of each instance id. */
  type FileData = seq<(string, seq<(string, InstanceData)>)>

  /** `_read_judge_file`: the read text (or the read error) and the JSON decoder are
      parameters; the decoder's `None` is a decode error. */
  function ReadJudgeFile(read: Result<string>, parse: string -> Option<FileData>): Option<FileData> {
    if read.Fail? then None
    else
      var content := Strip(read.value);
      if content == [] then None else parse(content)
  }

  /** A file is kept exactly when it was read, holds more than whitespace and decodes; it is then
      its decoding. No outcome is an exception. */
  lemma ReadJudgeFileSpec(read: Result<string>, parse: string -> Option<FileData>)
    ensures ReadJudgeFile(read, parse).Some? <==>
              read.Ok? && (exists i | 0 <= i < |read.value| :: !IsSpace(read.value[i]))
              && parse(Strip(read.value)).Some?
    ensures ReadJudgeFile(read, parse).Some? ==> ReadJudgeFile(read, parse) == parse(Strip(read.value))
  {
    if read.Ok? {
      StripEmpty(read.value);
    }
  }

  // ---------------------------------------------------------------- rows

  /** The metadata a row starts with. The model names and win rates come from the instance
      type's own methods, which are not part of this model, so they are carried as given. */
  datatype Meta = Meta(
    instanceId: string, tournamentName: string, playerName: string, roundNumber: int,
    modelName: string, opponentModelName: string, currentRoundWinRate: Json, nextRoundWinRate: Json)

  /** One instance's data in a judge file: its validated "instance" entry (or the error of a
      missing or invalid one) and its "result", if any. */
  datatype InstanceData = InstanceData(instance: Result<Meta>, result: Option<Json>)

  /** A row: its metadata, the data ids merged into it (once per merge), and the result columns
      in insertion order. */
  datatype Row = Row(meta: Meta, dataIds: seq<string>, columns: seq<(string, Json)>)

  type Rows = seq<(string, Row)>

  // ---------------------------------------------------------------- counting columns

  /** The number of `name` keys among `keys`. */
  function CountOf(keys: seq<Option<string>>, name: string): nat {
    if keys == [] then 0 else (if keys[0] == Some(name) then 1 else 0) + CountOf(keys[1..], name)
  }

  /** One column `<prefix><name>` per name, holding its count among `keys`. */
  function CountColumns(prefix: string, names: seq<string>, keys: seq<Option<string>>): (r: seq<(string, Json)>)
    ensures |r| == |names|
    ensures forall i | 0 <= i < |names| :: r[i] == (prefix + names[i], JNum(CountOf(keys, names[i])))
  {
    seq(|names|, i requires 0 <= i < |names| => (prefix + names[i], JNum(CountOf(keys, names[i]))))
  }

  /** The keys a list contributes to a `Counter`, or the first error raised while collecting
      them. */
  function KeysOfItems(items: seq<Json>, key: Json -> Result<Option<string>>): (r: Result<seq<Option<string>>>)
    ensures r.Ok? ==> |r.value| == |items|
  {
    if items == [] then Ok([])
    else match key(items[0])
      case Fail(e) => Fail(e)
      case Ok(k) =>
        match KeysOfItems(items[1..], key)
        case Fail(e) => Fail(e)
        case Ok(ks) => Ok([k] + ks)
  }

  /** The key an action-category entry contributes: its truthy "category". A string is its own
      key; a number or boolean is a key that no category name equals; a list or object cannot be
      a key; an entry that is not an object has no `get`. */
  function CategoryKey(cat: Json): Result<Option<string>> {
    if !cat.JObj? then Fail(AttributeError)
    else
      var v := GetOr(cat.fields, "category", JNull);
      if !Truthy(v) then Ok(None)
      else if v.JList? || v.JObj? then Fail(TypeError)
      else if v.JStr? then Ok(Some(v.s))
      else Ok(None)
  }

  /** The entries of a list whose "category" is the string `name`. */
  function CategoryMatches(cats: seq<Json>, name: string): nat {
    if cats == [] then 0
    else (if cats[0].JObj? && GetOr(cats[0].fields, "category", JNull) == JStr(name) then 1 else 0)
         + CategoryMatches(cats[1..], name)
  }

  /** Counting the collected keys counts the entries whose category is that name. */
  lemma {:induction false} CategoryCounts(cats: seq<Json>, name: string)
    requires name != [] && KeysOfItems(cats, CategoryKey).Ok?
    ensures CountOf(KeysOfItems(cats, CategoryKey).value, name) == CategoryMatches(cats, name)
    decreases |cats|
  {
    if cats != [] {
      CategoryCounts(cats[1..], name);
    }
  }

  /** What iterating a truthy value that is not a list raises: a string iterates its
      characters and an object its keys, neither of which has `get`; a number or boolean is not
      iterable. */
  function NotAListError(v: Json): Error {
    if v.JStr? || v.JObj? then AttributeError else TypeError
  }

  /** The columns the action-categories handler sets: `c_<category>` for every known category,
      or the error it raises before setting any. */
  function ActionColumns(result: Json, categories: seq<string>): Result<seq<(string, Json)>> {
    if !result.JObj? then Fail(AttributeError)
    else
      var cats := GetOr(result.fields, "categories", JList([]));
      if !Truthy(cats) then Ok(CountColumns("c_", categories, []))
      else if !cats.JList? then Fail(NotAListError(cats))
      else match KeysOfItems(cats.items, CategoryKey)
        case Fail(e) => Fail(e)
        case Ok(keys) => Ok(CountColumns("c_", categories, keys))
  }

  /** Every known category gets a column holding the number of entries naming it (0 when the
      list is empty or missing); no other category gets one. */
  lemma ActionColumnsSpec(result: Json, categories: seq<string>, i: nat)
    requires ActionColumns(result, categories).Ok? && i < |categories| && categories[i] != []
    ensures var us := ActionColumns(result, categories).value;
      && |us| == |categories|
      && us[i].0 == "c_" + categories[i]
      && us[i].1 == JNum(CategoryMatches(ListOrEmpty(GetOr(result.fields, "categories", JList([]))), categories[i]))
  {
    var cats := GetOr(result.fields, "categories", JList([]));
    if Truthy(cats) {
      CategoryCounts(cats.items, categories[i]);
    } else {
      assert CountOf([], categories[i]) == 0;
      FalsyMatches(cats, categories[i]);
    }
  }

  /** The entries of a list value; a falsy value has none. */
  function ListOrEmpty(v: Json): seq<Json> {
    if v.JList? then v.items else []
  }

  lemma FalsyMatches(v: Json, name: string)
    requires !Truthy(v)
    ensures CategoryMatches(ListOrEmpty(v), name) == 0
  {
  }

  /** The hallucination columns: one per claim and source category, "<claim>__<source>". */
  function Combinations(claims: seq<string>, sources: seq<string>): (r: seq<string>)
    ensures |r| == |claims| * |sources|
  {
    if claims == [] then []
    else
      assert |claims| * |sources| == |sources| + |claims[1..]| * |sources|;
      seq(|sources|, j requires 0 <= j < |sources| => claims[0] + "__" + sources[j]) + Combinations(claims[1..], sources)
  }

  /** A combination is a claim category, "__" and a source category. */
  lemma {:induction false} CombinationsSpec(claims: seq<string>, sources: seq<string>, x: string)
    ensures x in Combinations(claims, sources) <==> exists c, s | c in claims && s in sources :: x == c + "__" + s
    decreases |claims|
  {
    if claims != [] {
      CombinationsSpec(claims[1..], sources, x);
      var head := seq(|sources|, j requires 0 <= j < |sources| => claims[0] + "__" + sources[j]);
      assert Combinations(claims, sources) == head + Combinations(claims[1..], sources);
      if x in head {
        var j :| 0 <= j < |sources| && head[j] == x;
        assert claims[0] in claims && sources[j] in sources;
      }
      if exists c, s | c in claims && s in sources :: x == c + "__" + s {
        var c, s :| c in claims && s in sources && x == c + "__" + s;
        if c == claims[0] {
          var j :| 0 <= j < |sources| && sources[j] == s;
          assert head[j] == x;
        } else {
          assert c in claims[1..];
        }
      }
    }
  }

  const HallucinationCategories: seq<string> :=
    Combinations(Hallucination.ClaimCategories, Hallucination.SourceCategories)

  /** The key a hallucination item contributes: "<claim>__<source>" when both categories are
      truthy. A category that is not a string makes a key (its `str`) that no combination of
      category names equals; an item that is not an object has no `get`. */
  function ItemKey(item: Json): Result<Option<string>> {
    if !item.JObj? then Fail(AttributeError)
    else
      var c := GetOr(item.fields, "claim_category", JNull);
      var s := GetOr(item.fields, "source_category", JNull);
      if !(Truthy(c) && Truthy(s)) then Ok(None)
      else if c.JStr? && s.JStr? then Ok(Some(c.s + "__" + s.s))
      else Ok(None)
  }

  /** The items whose two categories are strings forming `name`. */
  function ItemMatches(items: seq<Json>, name: string): nat {
    if items == [] then 0
    else
      var c := if items[0].JObj? then GetOr(items[0].fields, "claim_category", JNull) else JNull;
      var s := if items[0].JObj? then GetOr(items[0].fields, "source_category", JNull) else JNull;
      (if c.JStr? && s.JStr? && c.s != [] && s.s != [] && c.s + "__" + s.s == name then 1 else 0)
      + ItemMatches(items[1..], name)
  }

  lemma {:induction false} ItemCounts(items: seq<Json>, name: string)
    requires KeysOfItems(items, ItemKey).Ok?
    ensures CountOf(KeysOfItems(items, ItemKey).value, name) == ItemMatches(items, name)
    decreases |items|
  {
    if items != [] {
      ItemCounts(items[1..], name);
    }
  }

  /** The columns the hallucination handler sets: `h_<claim>__<source>` for every combination,
      or the error it raises before setting any. */
  function HallucinationColumns(result: Json): Result<seq<(string, Json)>> {
    ItemColumns(result, HallucinationCategories)
  }

  /** The hallucination handler over any list of combinations. */
  function ItemColumns(result: Json, names: seq<string>): Result<seq<(string, Json)>> {
    if !result.JObj? then Fail(AttributeError)
    else
      var items := GetOr(result.fields, "items", JList([]));
      if !Truthy(items) then Ok(CountColumns("h_", names, []))
      else if !items.JList? then Fail(NotAListError(items))
      else match KeysOfItems(items.items, ItemKey)
        case Fail(e) => Fail(e)
        case Ok(keys) => Ok(CountColumns("h_", names, keys))
  }

  /** Every combination gets a column holding the number of items whose claim and source
      categories form it; items lacking either category count for none. */
  lemma ItemColumnsSpec(result: Json, names: seq<string>, i: nat)
    requires ItemColumns(result, names).Ok? && i < |names|
    ensures var us := ItemColumns(result, names).value;
      && |us| == |names|
      && us[i].0 == "h_" + names[i]
      && us[i].1 == JNum(ItemMatches(ListOrEmpty(GetOr(result.fields, "items", JList([]))), names[i]))
  {
    var items := GetOr(result.fields, "items", JList([]));
    if Truthy(items) {
      ItemCounts(items.items, names[i]);
    } else {
      assert CountOf([], names[i]) == 0;
    }
  }

  /** The big-questions handler copies the result object key for key. */
  function BigQuestionColumns(result: Json): Result<seq<(string, Json)>> {
    if result.JObj? then Ok(result.fields) else Fail(AttributeError)
  }

  /** The columns a data id's handler sets, in order; a missing "result" sets none. */
  function Updates(dataId: string, data: InstanceData, categories: seq<string>): Result<seq<(string, Json)>> {
    if data.result.None? then Ok([])
    else if dataId == ActionCategoriesDataId then ActionColumns(data.result.value, categories)
    else if dataId == BigQuestionsDataId then BigQuestionColumns(data.result.value)
    else if dataId == HallucinationDataId then HallucinationColumns(data.result.value)
    else Ok([])
  }

  /** `row[k] = v` for each update in order. */
  function PutAll(columns: seq<(string, Json)>, us: seq<(string, Json)>): seq<(string, Json)>
    decreases |us|
  {
    if us == [] then columns else PutAll(OrderedDict.Put(columns, us[0].0, us[0].1), us[1..])
  }

  /** After the updates, a column updated once holds its update and every other column is as
      before. */
  lemma {:induction false} PutAllGet(columns: seq<(string, Json)>, us: seq<(string, Json)>, k: string)
    requires OrderedDict.UniqueKeys(us)
    ensures OrderedDict.Get(PutAll(columns, us), k) ==
              if OrderedDict.Get(us, k).Some? then OrderedDict.Get(us, k) else OrderedDict.Get(columns, k)
    decreases |us|
  {
    if us != [] {
      var rest := us[1..];
      assert OrderedDict.UniqueKeys(rest) by {
        forall i, j | 0 <= i < j < |rest| ensures rest[i].0 != rest[j].0 {
          assert rest[i] == us[i + 1] && rest[j] == us[j + 1];
        }
      }
      PutAllGet(OrderedDict.Put(columns, us[0].0, us[0].1), rest, k);
      OrderedDict.PutGet(columns, us[0].0, us[0].1, k);
      OrderedDict.GetCons(us, k);
      if us[0].0 == k {
        OrderedDict.FindSpec(rest, k);
        forall i | 0 <= i < |rest| ensures rest[i].0 != k {
          assert rest[i] == us[i + 1];
        }
        assert k !in OrderedDict.KeysOf(rest);
      }
    }
  }

  // ---------------------------------------------------------------- merging entries

  /** One instance's data under one data id, in file order. */
  datatype Entry = Entry(dataId: string, instanceId: string, data: InstanceData)

  /** The entries of one data id that pass the instance filter. */
  function InstanceEntries(dataId: string, insts: seq<(string, InstanceData)>, filter: Option<set<string>>): (r: seq<Entry>)
    ensures forall e | e in r :: e.dataId == dataId && (filter.Some? ==> e.instanceId in filter.value)
  {
    if insts == [] then []
    else
      var rest := InstanceEntries(dataId, insts[1..], filter);
      if filter.Some? && insts[0].0 !in filter.value then rest
      else [Entry(dataId, insts[0].0, insts[0].1)] + rest
  }

  /** The entries of a file that are merged: those of the three data ids, in file order. */
  function FileEntries(fd: FileData, filter: Option<set<string>>): (r: seq<Entry>)
    ensures forall e | e in r :: e.dataId in AllowedDataIds && (filter.Some? ==> e.instanceId in filter.value)
  {
    if fd == [] then []
    else if fd[0].0 !in AllowedDataIds then FileEntries(fd[1..], filter)
    else InstanceEntries(fd[0].0, fd[0].1, filter) + FileEntries(fd[1..], filter)
  }

  /** Where processing stands: going on, or stopped by an exception (the rows keep every change
      made before it). */
  datatype Progress = Going(rows: Rows) | Stopped(rows: Rows)

  /** The row an entry is merged into: the existing one, or a new one from its metadata. */
  function RowFor(rows: Rows, e: Entry): Option<Row> {
    match OrderedDict.Get(rows, e.instanceId)
    case Some(row) => Some(row)
    case None => if e.data.instance.Ok? then Some(Row(e.data.instance.value, [], [])) else None
  }

  /** The row after an entry is merged into it: the data id is recorded, and the handler's
      columns are set unless the handler raises. */
  function MergedRow(row: Row, e: Entry, categories: seq<string>): Row {
    var tagged := row.(dataIds := row.dataIds + [e.dataId]);
    match Updates(e.dataId, e.data, categories)
    case Fail(_) => tagged
    case Ok(us) => tagged.(columns := PutAll(row.columns, us))
  }

  /** Merging one entry: the row is created on the instance id's first entry and merged into;
      an exception (from creating the row or from the handler) stops the file, keeping the data
      id already recorded. */
  function Merge(rows: Rows, e: Entry, categories: seq<string>): Progress {
    match RowFor(rows, e)
    case None => Stopped(rows)
    case Some(row) =>
      var after := OrderedDict.Put(rows, e.instanceId, MergedRow(row, e, categories));
      if Updates(e.dataId, e.data, categories).Fail? then Stopped(after) else Going(after)
  }

  /** Merging entries in order until one raises. */
  function Run(rows: Rows, es: seq<Entry>, categories: seq<string>): Progress
    decreases |es|
  {
    if es == [] then Going(rows)
    else match Merge(rows, es[0], categories)
      case Stopped(r) => Stopped(r)
      case Going(r) => Run(r, es[1..], categories)
  }

  lemma {:induction false} RunAppend(rows: Rows, a: seq<Entry>, b: seq<Entry>, categories: seq<string>)
    ensures Run(rows, a + b, categories) ==
              if Run(rows, a, categories).Stopped? then Run(rows, a, categories)
              else Run(Run(rows, a, categories).rows, b, categories)
    decreases |a|
  {
    if a == [] {
      assert a + b == b;
    } else {
      assert (a + b)[0] == a[0] && (a + b)[1..] == a[1..] + b;
      if Merge(rows, a[0], categories).Going? {
        RunAppend(Merge(rows, a[0], categories).rows, a[1..], b, categories);
      }
    }
  }

  /** The rows after every judge file, in the order the files complete. */
  function Aggregated(files: seq<Option<FileData>>, filter: Option<set<string>>, categories: seq<string>): Rows {
    AggregatedFrom([], files, filter, categories)
  }

  function AggregatedFrom(rows: Rows, files: seq<Option<FileData>>, filter: Option<set<string>>, categories: seq<string>): Rows
    decreases |files|
  {
    if files == [] then rows
    else if files[0].None? then AggregatedFrom(rows, files[1..], filter, categories)
    else AggregatedFrom(Run(rows, FileEntries(files[0].value, filter), categories).rows, files[1..], filter, categories)
  }

  // ---------------------------------------------------------------- what merging keeps

  /** Merging an entry changes at most the entry's own row, which it creates on the instance
      id's first entry and whose metadata it then keeps. */
  lemma MergeGet(rows: Rows, e: Entry, categories: seq<string>, k: string)
    ensures OrderedDict.Get(Merge(rows, e, categories).rows, k) ==
              if k == e.instanceId && RowFor(rows, e).Some?
              then Some(MergedRow(RowFor(rows, e).value, e, categories))
              else OrderedDict.Get(rows, k)
    ensures RowFor(rows, e).Some? ==>
              && MergedRow(RowFor(rows, e).value, e, categories).meta ==
                   (if OrderedDict.Get(rows, e.instanceId).Some? then OrderedDict.Get(rows, e.instanceId).value.meta
                    else e.data.instance.value)
              && MergedRow(RowFor(rows, e).value, e, categories).dataIds ==
                   (if OrderedDict.Get(rows, e.instanceId).Some? then OrderedDict.Get(rows, e.instanceId).value.dataIds
                    else []) + [e.dataId]
  {
    if RowFor(rows, e).Some? {
      OrderedDict.PutGet(rows, e.instanceId, MergedRow(RowFor(rows, e).value, e, categories), k);
    }
  }

  /** Merging entries keeps every existing row, with its metadata and its recorded data ids. */
  lemma {:induction false} RunKeepsRows(rows: Rows, es: seq<Entry>, categories: seq<string>, k: string)
    requires OrderedDict.Get(rows, k).Some?
    ensures var after := OrderedDict.Get(Run(rows, es, categories).rows, k);
      && after.Some?
      && after.value.meta == OrderedDict.Get(rows, k).value.meta
      && OrderedDict.Get(rows, k).value.dataIds <= after.value.dataIds
    decreases |es|
  {
    if es != [] {
      MergeGet(rows, es[0], categories, k);
      var next := Merge(rows, es[0], categories).rows;
      if Merge(rows, es[0], categories).Going? {
        RunKeepsRows(next, es[1..], categories, k);
      }
    }
  }

  /** Every row has a key the filter admits and records only the three data ids. */
  predicate Admitted(rows: Rows, filter: Option<set<string>>) {
    forall i | 0 <= i < |rows| ::
      && (filter.Some? ==> rows[i].0 in filter.value)
      && (forall d | d in rows[i].1.dataIds :: d in AllowedDataIds)
  }

  lemma MergeAdmitted(rows: Rows, e: Entry, categories: seq<string>, filter: Option<set<string>>)
    requires Admitted(rows, filter)
    requires e.dataId in AllowedDataIds && (filter.Some? ==> e.instanceId in filter.value)
    ensures Admitted(Merge(rows, e, categories).rows, filter)
  {
    if RowFor(rows, e).Some? {
      var row := RowFor(rows, e).value;
      var merged := MergedRow(row, e, categories);
      if OrderedDict.Get(rows, e.instanceId).Some? {
        var i := OrderedDict.Find(rows, e.instanceId).value;
        assert row == rows[i].1;
      }
      assert forall d | d in merged.dataIds :: d in AllowedDataIds;
      OrderedDict.PutEntries(rows, e.instanceId, merged);
    }
  }

  lemma {:induction false} RunAdmitted(rows: Rows, es: seq<Entry>, categories: seq<string>, filter: Option<set<string>>)
    requires Admitted(rows, filter)
    requires forall e | e in es :: e.dataId in AllowedDataIds && (filter.Some? ==> e.instanceId in filter.value)
    ensures Admitted(Run(rows, es, categories).rows, filter)
    decreases |es|
  {
    if es != [] {
      assert es[0] in es;
      MergeAdmitted(rows, es[0], categories, filter);
      if Merge(rows, es[0], categories).Going? {
        assert forall e | e in es[1..] :: e in es;
        RunAdmitted(Merge(rows, es[0], categories).rows, es[1..], categories, filter);
      }
    }
  }

  /** Only instances the filter admits get a row, and rows record only the three versioned data
      ids: every other data id is skipped. */
  lemma {:induction false} AggregatedAdmitted(rows: Rows, files: seq<Option<FileData>>, filter: Option<set<string>>, categories: seq<string>)
    requires Admitted(rows, filter)
    ensures Admitted(AggregatedFrom(rows, files, filter, categories), filter)
    decreases |files|
  {
    if files != [] {
      if files[0].Some? {
        RunAdmitted(rows, FileEntries(files[0].value, filter), categories, filter);
        AggregatedAdmitted(Run(rows, FileEntries(files[0].value, filter), categories).rows, files[1..], filter, categories);
      } else {
        AggregatedAdmitted(rows, files[1..], filter, categories);
      }
    }
  }

  // ---------------------------------------------------------------- counting rows per data id

  /** The rows that record data id `id`. */
  function RowsWith(rows: Rows, id: string): nat {
    if rows == [] then 0 else (if id in rows[0].1.dataIds then 1 else 0) + RowsWith(rows[1..], id)
  }

  function Has(row: Row, id: string): nat {
    if id in row.dataIds then 1 else 0
  }

  lemma {:induction false} RowsWithUpdate(rows: Rows, i: nat, x: (string, Row), id: string)
    requires i < |rows|
    ensures RowsWith(rows[i := x], id) + Has(rows[i].1, id) == RowsWith(rows, id) + Has(x.1, id)
    decreases i
  {
    if i > 0 {
      assert rows[i := x][1..] == rows[1..][i - 1 := x];
      RowsWithUpdate(rows[1..], i - 1, x, id);
    } else {
      assert rows[i := x][1..] == rows[1..];
    }
  }

  lemma {:induction false} RowsWithAppend(rows: Rows, x: (string, Row), id: string)
    ensures RowsWith(rows + [x], id) == RowsWith(rows, id) + Has(x.1, id)
    decreases |rows|
  {
    if rows == [] {
      assert [x][1..] == [];
    } else {
      assert (rows + [x])[1..] == rows[1..] + [x];
      RowsWithAppend(rows[1..], x, id);
    }
  }

  /** Storing a row replaces the stored row's share of the count by its own. */
  lemma RowsWithPut(rows: Rows, k: string, v: Row, id: string)
    ensures RowsWith(OrderedDict.Put(rows, k, v), id)
              + (if OrderedDict.Get(rows, k).Some? then Has(OrderedDict.Get(rows, k).value, id) else 0)
            == RowsWith(rows, id) + Has(v, id)
  {
    match OrderedDict.Find(rows, k)
    case Some(i) => RowsWithUpdate(rows, i, (k, v), id);
    case None => RowsWithAppend(rows, (k, v), id);
  }

  /** Whether merging `e` records data id `id` in a row that did not have it yet. */
  function NewlyWith(rows: Rows, e: Entry, id: string): nat {
    if RowFor(rows, e).Some? && e.dataId == id && id !in RowFor(rows, e).value.dataIds then 1 else 0
  }

  /** A merge adds a row to a data id's count exactly when it records that id in a row for the
      first time. */
  lemma MergeRowsWith(rows: Rows, e: Entry, categories: seq<string>, id: string)
    ensures RowsWith(Merge(rows, e, categories).rows, id) == RowsWith(rows, id) + NewlyWith(rows, e, id)
  {
    if RowFor(rows, e).Some? {
      var row := RowFor(rows, e).value;
      RowsWithPut(rows, e.instanceId, MergedRow(row, e, categories), id);
    }
  }

  // ---------------------------------------------------------------- the missing-ids error

  /** Python's `repr` of a list of plain strings. */
  function ListRepr(xs: seq<string>): string {
    "[" + Join(seq(|xs|, i requires 0 <= i < |xs| => "'" + xs[i] + "'"), ", ") + "]"
  }

  function MissingMessage(missing: seq<string>): string {
    "Could not find " + NatToString(|missing|) + " instances in llm_as_judge.json files: " + ListRepr(missing)
  }

  /** The instance ids that have a row. */
  function KeySet(rows: Rows): set<string> {
    set i | 0 <= i < |rows| :: rows[i].0
  }

  /** The judge files as read, in the order their reads complete. */
  function Files(texts: seq<Result<string>>, parse: string -> Option<FileData>): (r: seq<Option<FileData>>)
    ensures |r| == |texts| && forall i | 0 <= i < |texts| :: r[i] == ReadJudgeFile(texts[i], parse)
  {
    seq(|texts|, i requires 0 <= i < |texts| => ReadJudgeFile(texts[i], parse))
  }

  lemma DifferenceEmpty(a: set<string>, b: set<string>)
    ensures a - b == {} <==> a <= b
  {
    if a - b == {} {
      forall x | x in a ensures x in b {
        assert x !in a - b;
      }
    }
  }

  // ---------------------------------------------------------------- the aggregator

  /** The loop that sets one count column per name. */
  method SetCounts(columns: seq<(string, Json)>, prefix: string, names: seq<string>, keys: seq<Option<string>>)
    returns (r: seq<(string, Json)>)
    ensures r == PutAll(columns, CountColumns(prefix, names, keys))
  {
    var us := CountColumns(prefix, names, keys);
    r := columns;
    for i := 0 to |names|
      invariant PutAll(r, us[i..]) == PutAll(columns, us)
    {
      assert us[i..][0] == us[i] && us[i..][1..] == us[i + 1..];
      r := OrderedDict.Put(r, prefix + names[i], JNum(CountOf(keys, names[i])));
    }
    assert us[|names|..] == [];
  }

  /** A handler's effect on the columns: its columns set, or its exception. */
  function Handled(columns: seq<(string, Json)>, updates: Result<seq<(string, Json)>>): Result<seq<(string, Json)>> {
    if updates.Fail? then Fail(updates.error) else Ok(PutAll(columns, updates.value))
  }

  class ResultsAggregator {
    const bigQuestionsDataId: string
    const actionCategoriesDataId: string
    const hallucinationDataId: string
    /** The action category names, defined in `categorize_actions.py`. */
    const actionCategories: seq<string>
    var actionCategoriesCount: nat
    var bigQuestionsCount: nat
    var hallucinationCount: nat

    predicate Valid() {
      && bigQuestionsDataId == BigQuestionsDataId
      && actionCategoriesDataId == ActionCategoriesDataId
      && hallucinationDataId == HallucinationDataId
    }

    constructor(actionCategories: seq<string>)
      ensures Valid() && this.actionCategories == actionCategories
      ensures actionCategoriesCount == 0 && bigQuestionsCount == 0 && hallucinationCount == 0
    {
      bigQuestionsDataId := "big_questions_v" + NatToString(BigQuestionsVersion);
      actionCategoriesDataId := "action_categories_v" + NatToString(ActionCategoriesVersion);
      hallucinationDataId := "hallucination_v" + NatToString(HallucinationVersion);
      this.actionCategories := actionCategories;
      actionCategoriesCount := 0;
      bigQuestionsCount := 0;
      hallucinationCount := 0;
    }

    /** `_add_action_categories_results` */
    method AddActionCategoriesResults(columns: seq<(string, Json)>, result: Json) returns (r: Result<seq<(string, Json)>>)
      ensures r == Handled(columns, ActionColumns(result, actionCategories))
    {
      if !result.JObj? {
        return Fail(AttributeError);
      }
      var categories := GetOr(result.fields, "categories", JList([]));
      var keys: seq<Option<string>> := [];
      if Truthy(categories) {
        if !categories.JList? {
          return Fail(NotAListError(categories));
        }
        var counted := KeysOfItems(categories.items, CategoryKey);
        if counted.Fail? {
          return Fail(counted.error);
        }
        keys := counted.value;
      }
      var updated := SetCounts(columns, "c_", actionCategories, keys);
      return Ok(updated);
    }

    /** `_add_big_questions_results` */
    method AddBigQuestionsResults(columns: seq<(string, Json)>, result: Json) returns (r: Result<seq<(string, Json)>>)
      ensures r == Handled(columns, BigQuestionColumns(result))
    {
      if !result.JObj? {
        return Fail(AttributeError);
      }
      var fields := result.fields;
      var updated := columns;
      for i := 0 to |fields|
        invariant PutAll(updated, fields[i..]) == PutAll(columns, fields)
      {
        assert fields[i..][0] == fields[i] && fields[i..][1..] == fields[i + 1..];
        updated := OrderedDict.Put(updated, fields[i].0, fields[i].1);
      }
      assert fields[|fields|..] == [];
      return Ok(updated);
    }

    /** `_add_hallucination_results` */
    method AddHallucinationResults(columns: seq<(string, Json)>, result: Json) returns (r: Result<seq<(string, Json)>>)
      ensures r == Handled(columns, HallucinationColumns(result))
    {
      if !result.JObj? {
        return Fail(AttributeError);
      }
      var items := GetOr(result.fields, "items", JList([]));
      var keys: seq<Option<string>> := [];
      if Truthy(items) {
        if !items.JList? {
          return Fail(NotAListError(items));
        }
        var counted := KeysOfItems(items.items, ItemKey);
        if counted.Fail? {
          return Fail(counted.error);
        }
        keys := counted.value;
      }
      var updated := SetCounts(columns, "h_", HallucinationCategories, keys);
      return Ok(updated);
    }

    /** `_add_data_id_results`: the data id is recorded (and counted if new to the row) before
        the handler runs, so a handler's exception leaves it recorded. */
    method AddDataIdResults(row: Row, e: Entry) returns (merged: Row, raised: bool)
      requires Valid()
      modifies this
      ensures merged == MergedRow(row, e, actionCategories)
      ensures raised == Updates(e.dataId, e.data, actionCategories).Fail?
      ensures actionCategoriesCount == old(actionCategoriesCount)
                + (if e.dataId == ActionCategoriesDataId && e.dataId !in row.dataIds then 1 else 0)
      ensures bigQuestionsCount == old(bigQuestionsCount)
                + (if e.dataId == BigQuestionsDataId && e.dataId !in row.dataIds then 1 else 0)
      ensures hallucinationCount == old(hallucinationCount)
                + (if e.dataId == HallucinationDataId && e.dataId !in row.dataIds then 1 else 0)
    {
      DataIds();
      var dataId := e.dataId;
      if dataId !in row.dataIds {
        if dataId == actionCategoriesDataId {
          actionCategoriesCount := actionCategoriesCount + 1;
        } else if dataId == bigQuestionsDataId {
          bigQuestionsCount := bigQuestionsCount + 1;
        } else if dataId == hallucinationDataId {
          hallucinationCount := hallucinationCount + 1;
        }
      }
      var tagged := row.(dataIds := row.dataIds + [dataId]);
      var r: Result<seq<(string, Json)>> := Ok(row.columns);
      if e.data.result.Some? {
        if dataId == actionCategoriesDataId {
          r := AddActionCategoriesResults(row.columns, e.data.result.value);
        } else if dataId == bigQuestionsDataId {
          r := AddBigQuestionsResults(row.columns, e.data.result.value);
        } else if dataId == hallucinationDataId {
          r := AddHallucinationResults(row.columns, e.data.result.value);
        }
      }
      if r.Fail? {
        return tagged, true;
      }
      return tagged.(columns := r.value), false;
    }

    /** The counters against a count of rows: each has grown by the rows that came to record
        its data id. */
    predicate CountsFollow(c0: nat, c1: nat, c2: nat, before: Rows, after: Rows)
      reads this
    {
      && actionCategoriesCount + RowsWith(before, ActionCategoriesDataId) == c0 + RowsWith(after, ActionCategoriesDataId)
      && bigQuestionsCount + RowsWith(before, BigQuestionsDataId) == c1 + RowsWith(after, BigQuestionsDataId)
      && hallucinationCount + RowsWith(before, HallucinationDataId) == c2 + RowsWith(after, HallucinationDataId)
    }

    /** One instance of one data id: its row is created on first sight, then merged into. */
    method MergeEntry(rows: Rows, e: Entry) returns (p: Progress)
      requires Valid()
      modifies this
      ensures p == Merge(rows, e, actionCategories)
      ensures CountsFollow(old(actionCategoriesCount), old(bigQuestionsCount), old(hallucinationCount), rows, p.rows)
    {
      MergeRowsWith(rows, e, actionCategories, ActionCategoriesDataId);
      MergeRowsWith(rows, e, actionCategories, BigQuestionsDataId);
      MergeRowsWith(rows, e, actionCategories, HallucinationDataId);
      var existing := OrderedDict.Get(rows, e.instanceId);
      var row: Row;
      if existing.Some? {
        row := existing.value;
      } else {
        if e.data.instance.Fail? {
          return Stopped(rows);
        }
        row := Row(e.data.instance.value, [], []);
      }
      var merged, raised := AddDataIdResults(row, e);
      var after := OrderedDict.Put(rows, e.instanceId, merged);
      if raised {
        return Stopped(after);
      }
      return Going(after);
    }

    /** The body of the loop over files: every allowed data id's instances, skipping those
        outside the filter, until an exception ends the file. */
    method ProcessFile(rows: Rows, fd: FileData, filter: Option<set<string>>) returns (rows': Rows)
      requires Valid()
      modifies this
      ensures rows' == Run(rows, FileEntries(fd, filter), actionCategories).rows
      ensures CountsFollow(old(actionCategoriesCount), old(bigQuestionsCount), old(hallucinationCount), rows, rows')
    {
      rows' := rows;
      for i := 0 to |fd|
        invariant Run(rows', FileEntries(fd[i..], filter), actionCategories) == Run(rows, FileEntries(fd, filter), actionCategories)
        invariant CountsFollow(old(actionCategoriesCount), old(bigQuestionsCount), old(hallucinationCount), rows, rows')
      {
        assert fd[i..][0] == fd[i] && fd[i..][1..] == fd[i + 1..];
        var dataId, instances := fd[i].0, fd[i].1;
        if dataId !in [actionCategoriesDataId, bigQuestionsDataId, hallucinationDataId] {
          continue;
        }
        RunAppend(rows', InstanceEntries(dataId, instances, filter), FileEntries(fd[i + 1..], filter), actionCategories);
        var p := ProcessDataId(rows', dataId, instances, filter);
        rows' := p.rows;
        if p.Stopped? {
          return;
        }
      }
      assert fd[|fd|..] == [];
    }

    /** The loop over one data id's instances. */
    method ProcessDataId(rows: Rows, dataId: string, instances: seq<(string, InstanceData)>, filter: Option<set<string>>)
      returns (p: Progress)
      requires Valid()
      modifies this
      ensures p == Run(rows, InstanceEntries(dataId, instances, filter), actionCategories)
      ensures CountsFollow(old(actionCategoriesCount), old(bigQuestionsCount), old(hallucinationCount), rows, p.rows)
    {
      var cur := rows;
      for j := 0 to |instances|
        invariant Run(cur, InstanceEntries(dataId, instances[j..], filter), actionCategories)
                  == Run(rows, InstanceEntries(dataId, instances, filter), actionCategories)
        invariant CountsFollow(old(actionCategoriesCount), old(bigQuestionsCount), old(hallucinationCount), rows, cur)
      {
        assert instances[j..][0] == instances[j] && instances[j..][1..] == instances[j + 1..];
        var instanceId := instances[j].0;
        if filter.Some? && instanceId !in filter.value {
          continue;
        }
        var next := MergeEntry(cur, Entry(dataId, instanceId, instances[j].1));
        if next.Stopped? {
          return next;
        }
        cur := next.rows;
      }
      assert instances[|instances|..] == [];
      return Going(cur);
    }

    /** `aggregate_results_to_dataframe`: the judge files in the order their reads complete;
        then, with a filter, the error naming every filtered id that has no row. */
    method AggregateResultsToDataframe(texts: seq<Result<string>>, parse: string -> Option<FileData>,
                                       instanceIds: Option<set<string>>) returns (r: Result<Rows>)
      requires Valid()
      modifies this
      ensures var rows := Aggregated(Files(texts, parse), instanceIds, actionCategories);
        && actionCategoriesCount == old(actionCategoriesCount) + RowsWith(rows, ActionCategoriesDataId)
        && bigQuestionsCount == old(bigQuestionsCount) + RowsWith(rows, BigQuestionsDataId)
        && hallucinationCount == old(hallucinationCount) + RowsWith(rows, HallucinationDataId)
        && (r.Ok? <==> instanceIds.None? || instanceIds.value <= KeySet(rows))
        && (r.Ok? ==> r.value == rows)
        && (r.Fail? ==> exists missing: seq<string> ::
              && Ordering.StrictlySorted(missing)
              && (forall x :: x in missing <==> x in instanceIds.value - KeySet(rows))
              && r.error == ValueError(MissingMessage(missing)))
    {
      var rows := ReadAll(texts, parse, instanceIds);
      if instanceIds.Some? {
        var found := KeySet(rows);
        var missingIds := instanceIds.value - found;
        DifferenceEmpty(instanceIds.value, found);
        if missingIds != {} {
          var missing := Ordering.SortedOfSet(missingIds);
          assert Ordering.StrictlySorted(missing) && forall x :: x in missing <==> x in missingIds;
          return Fail(ValueError(MissingMessage(missing)));
        }
      }
      return Ok(rows);
    }

    /** The loop over the judge files. */
    method ReadAll(texts: seq<Result<string>>, parse: string -> Option<FileData>, instanceIds: Option<set<string>>)
      returns (rows: Rows)
      requires Valid()
      modifies this
      ensures rows == Aggregated(Files(texts, parse), instanceIds, actionCategories)
      ensures actionCategoriesCount == old(actionCategoriesCount) + RowsWith(rows, ActionCategoriesDataId)
      ensures bigQuestionsCount == old(bigQuestionsCount) + RowsWith(rows, BigQuestionsDataId)
      ensures hallucinationCount == old(hallucinationCount) + RowsWith(rows, HallucinationDataId)
    {
      ghost var files := Files(texts, parse);
      rows := [];
      for k := 0 to |texts|
        invariant AggregatedFrom(rows, files[k..], instanceIds, actionCategories) == Aggregated(files, instanceIds, actionCategories)
        invariant CountsFollow(old(actionCategoriesCount), old(bigQuestionsCount), old(hallucinationCount), [], rows)
      {
        assert files[k..][0] == files[k] && files[k..][1..] == files[k + 1..];
        var fileData := ReadJudgeFile(texts[k], parse);
        if fileData.None? {
          continue;
        }
        rows := ProcessFile(rows, fileData.value, instanceIds);
      }
      assert files[|texts|..] == [];
    }
  }
}
