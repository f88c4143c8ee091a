/** The per-file history the code-organisation analysis builds for one player in one
    tournament: for every file, the list of (round, operation, lines added, lines removed)
    entries, grown round by round from that round's diff and from the files the round's
    shell commands mention. A diff is given already parsed, one record per patched file. */
module FileHistory {
  import opened Wrappers
  import opened Text
  import opened OrderedDict
  import opened Trajectory

  datatype Op = Created | Modified | Deleted | Renamed | Referenced

  datatype Entry = Entry(round: int, op: Op, added: int, removed: int)

  /** `file_history`: file name to entries, in insertion order. */
  type History = seq<(string, seq<Entry>)>

  // ---------------------------------------------------------------- actions

  const BashFence := "```bash"
  const Fence := "```"

  /** `extract_action`: the stripped body of the first ```bash ... ``` block, if any. */
  function ExtractAction(s: string): Option<string>
  {
    match FindFrom(s, BashFence, 0)
    case None => None
    case Some(k) =>
      match FindFrom(s, Fence, k + |BashFence|)
      case None => None
      case Some(j) => Some(Strip(s[k + |BashFence|..j]))
  }

  /** An `open` at `k` and a `close` at `j` after it. */
  predicate FencedBy(s: string, open: string, close: string, k: int, j: int) {
    k + |open| <= j && HasAt(s, open, k) && HasAt(s, close, j)
  }

  /** ... with `open` the first one and `close` the first one after it. */
  predicate FirstFencedBy(s: string, open: string, close: string, k: int, j: int) {
    FencedBy(s, open, close, k, j)
    && (forall i | 0 <= i < k :: !HasAt(s, open, i))
    && (forall i | k + |open| <= i < j :: !HasAt(s, close, i))
  }

  /** No `open` at all: no block. */
  lemma NoOpen(s: string, open: string, close: string)
    requires FindFrom(s, open, 0).None?
    ensures !exists k, j :: FencedBy(s, open, close, k, j)
  {
  }

  /** No `close` after the first `open`: no block. */
  lemma NoClose(s: string, open: string, close: string, k: nat)
    requires FindFrom(s, open, 0) == Some(k) && FindFrom(s, close, k + |open|).None?
    ensures !exists k', j :: FencedBy(s, open, close, k', j)
  {
    forall k', j | k' + |open| <= j && HasAt(s, open, k')
      ensures !HasAt(s, close, j)
    {
      assert k <= k';
    }
  }

  /** The first `open` and the first `close` after it bound the first block. */
  lemma FirstOpenClose(s: string, open: string, close: string, k: nat, j: nat)
    requires FindFrom(s, open, 0) == Some(k) && FindFrom(s, close, k + |open|) == Some(j)
    ensures FirstFencedBy(s, open, close, k, j)
  {
  }

  /** A bash fence at `k` and a fence at `j` after it. */
  predicate Fenced(s: string, k: int, j: int) {
    FencedBy(s, BashFence, Fence, k, j)
  }

  /** ... with the bash fence the first one and the fence the first one after it. */
  predicate FirstFenced(s: string, k: int, j: int) {
    FirstFencedBy(s, BashFence, Fence, k, j)
  }

  /** A block is found exactly when some bash fence is followed by a closing fence; the
      action is then the body between the first bash fence and the first fence after it. */
  lemma ExtractActionSpec(s: string)
    ensures ExtractAction(s).None? <==> !exists k, j :: Fenced(s, k, j)
    ensures ExtractAction(s).Some? ==>
              exists k, j :: FirstFenced(s, k, j) && ExtractAction(s).value == Strip(s[k + |BashFence|..j])
  {
    var open := FindFrom(s, BashFence, 0);
    if open.None? {
      NoOpen(s, BashFence, Fence);
    } else {
      var k := open.value;
      var close := FindFrom(s, Fence, k + |BashFence|);
      if close.None? {
        NoClose(s, BashFence, Fence, k);
      } else {
        FirstOpenClose(s, BashFence, Fence, k, close.value);
        assert FirstFenced(s, k, close.value) && Fenced(s, k, close.value);
        assert ExtractAction(s).value == Strip(s[k + |BashFence|..close.value]);
      }
    }
  }

  /** What one message contributes to the actions. */
  function MessageAction(m: Message): seq<string>
  {
    if m.role != Assistant then []
    else match ExtractAction(JoinedText(m.content))
      case Some(a) => [a]
      case None => []
  }

  /** The actions of a trajectory, in message order. */
  function ActionsOf(msgs: seq<Message>): seq<string>
  {
    if msgs == [] then [] else MessageAction(msgs[0]) + ActionsOf(msgs[1..])
  }

  lemma {:induction false} ActionsOfSnoc(msgs: seq<Message>, m: Message)
    ensures ActionsOf(msgs + [m]) == ActionsOf(msgs) + MessageAction(m)
    decreases |msgs|
  {
    if msgs == [] {
      assert [] + [m] == [m] && [m][1..] == [];
    } else {
      assert (msgs + [m])[0] == msgs[0] && (msgs + [m])[1..] == msgs[1..] + [m];
      ActionsOfSnoc(msgs[1..], m);
    }
  }

  /** The actions of the first `i + 1` messages. */
  lemma ActionsStep(msgs: seq<Message>, i: nat)
    requires i < |msgs|
    ensures ActionsOf(msgs[..i + 1]) == ActionsOf(msgs[..i]) + MessageAction(msgs[i])
  {
    assert msgs[..i + 1] == msgs[..i] + [msgs[i]];
    ActionsOfSnoc(msgs[..i], msgs[i]);
  }

  /** Every message has a "role" key, so `msg["role"]` never raises. */
  predicate HasRoles(msgs: seq<Message>) {
    forall i | 0 <= i < |msgs| :: msgs[i].role != NoRole
  }

  /** `get_actions`: the actions of the assistant messages, or the KeyError of the first
      message without a "role" key. */
  method GetActions(msgs: seq<Message>) returns (r: Result<seq<string>>)
    ensures r.Ok? <==> HasRoles(msgs)
    ensures r.Ok? ==> r.value == ActionsOf(msgs)
    ensures r.Fail? ==> r.error == KeyError("role")
  {
    var actions := [];
    for i := 0 to |msgs|
      invariant actions == ActionsOf(msgs[..i])
      invariant forall j | 0 <= j < i :: msgs[j].role != NoRole
    {
      ActionsStep(msgs, i);
      if msgs[i].role == NoRole {
        return Fail(KeyError("role"));
      }
      if msgs[i].role != Assistant {
        continue;
      }
      var a := ExtractAction(JoinedText(msgs[i].content));
      assert MessageAction(msgs[i]) == if a.Some? then [a.value] else [];
      if a.Some? {
        actions := actions + [a.value];
      } else {
        assert actions + [] == actions;
      }
    }
    assert msgs[..|msgs|] == msgs;
    return Ok(actions);
  }

  /** `a` is the command found in assistant message `m`. */
  predicate ActionOf(m: Message, a: string) {
    m.role == Assistant && ExtractAction(JoinedText(m.content)) == Some(a)
  }

  /** At most one action per assistant message. */
  lemma {:induction false} ActionsAtMostAssistants(msgs: seq<Message>)
    ensures |ActionsOf(msgs)| <= AssistantCount(msgs)
    decreases |msgs|
  {
    if msgs != [] {
      ActionsAtMostAssistants(msgs[1..]);
    }
  }

  /** Every action comes from an assistant message. */
  lemma {:induction false} ActionFromAssistant(msgs: seq<Message>, a: string)
    requires a in ActionsOf(msgs)
    ensures exists i | 0 <= i < |msgs| :: ActionOf(msgs[i], a)
    decreases |msgs|
  {
    var rest := msgs[1..];
    if a in MessageAction(msgs[0]) {
      assert ActionOf(msgs[0], a);
    } else {
      assert a in ActionsOf(rest);
      ActionFromAssistant(rest, a);
      var i :| 0 <= i < |rest| && ActionOf(rest[i], a);
      assert msgs[i + 1] == rest[i];
    }
  }

  // ---------------------------------------------------------------- history updates

  /** The kind of a patched file, in the order the script tests them: an added file, else a
      removed file, else a rename, else a modification. */
  datatype PatchKind = AddedFile | RemovedFile | RenamedFile | ModifiedFile

  /** One file of a round's parsed diff. `binary` says whether its text mentions
      "Binary files". */
  datatype PatchedFile = PatchedFile(path: string, source: string, target: string, kind: PatchKind,
                                     added: int, removed: int, binary: bool)

  /** `file_history[k]` of the defaultdict: the entries, or none. */
  function Lookup(h: History, k: string): seq<Entry>
  {
    match Get(h, k)
    case Some(v) => v
    case None => []
  }

  /** `file_history[k].append(e)` */
  function AppendEntry(h: History, k: string, e: Entry): History
  {
    Put(h, k, Lookup(h, k) + [e])
  }

  /** The entry a patched file adds. */
  function EntryFor(r: int, pf: PatchedFile): Entry
  {
    match pf.kind
    case AddedFile => Entry(r, Created, pf.added, 0)
    case RemovedFile => Entry(r, Deleted, 0, pf.removed)
    case RenamedFile => Entry(r, Renamed, pf.added, pf.removed)
    case ModifiedFile => Entry(r, Modified, pf.added, pf.removed)
  }

  /** The file the entry goes to: the new name of a rename, the path otherwise. */
  function KeyFor(pf: PatchedFile): string
  {
    if pf.kind == RenamedFile then pf.target else pf.path
  }

  /** A rename's transfer: the old name's history is copied to the new name, then the old
      name is deleted; nothing happens when the old name has no history. */
  function Transfer(h: History, from: string, to: string): History
  {
    match Get(h, from)
    case Some(v) => Remove(Put(h, to, v), from)
    case None => h
  }

  /** One patched file applied to the history. */
  function ApplyFile(h: History, r: int, pf: PatchedFile): History
  {
    if pf.binary then h
    else
      var base := if pf.kind == RenamedFile then Transfer(h, pf.source, pf.target) else h;
      AppendEntry(base, KeyFor(pf), EntryFor(r, pf))
  }

  /** The round's patched files applied in order. */
  function ApplyPatch(h: History, r: int, patch: seq<PatchedFile>): History
    decreases |patch|
  {
    if patch == [] then h else ApplyPatch(ApplyFile(h, r, patch[0]), r, patch[1..])
  }

  function Paths(patch: seq<PatchedFile>): (ps: seq<string>)
    ensures |ps| == |patch| && forall i | 0 <= i < |patch| :: ps[i] == patch[i].path
  {
    seq(|patch|, i requires 0 <= i < |patch| => patch[i].path)
  }

  /** The history's files that the diff does not name, in the history's order. */
  function Untouched(keys: seq<string>, paths: seq<string>): seq<string>
  {
    if keys == [] then [] else (if keys[0] in paths then [] else [keys[0]]) + Untouched(keys[1..], paths)
  }

  /** `filename.split("/")[-1]` */
  function Basename(f: string): string { AfterLast(f, "/") }

  function ReferenceEntry(r: int): Entry { Entry(r, Referenced, 0, 0) }

  /** One action checked against every untouched file, in order. */
  function ReferenceAction(h: History, r: int, names: seq<string>, action: string): History
    decreases |names|
  {
    if names == [] then h
    else
      var h' := if Contains(action, Basename(names[0])) then AppendEntry(h, names[0], ReferenceEntry(r)) else h;
      ReferenceAction(h', r, names[1..], action)
  }

  /** Every action, in order. */
  function ReferenceActions(h: History, r: int, names: seq<string>, actions: seq<string>): History
    decreases |actions|
  {
    if actions == [] then h
    else ReferenceActions(ReferenceAction(h, r, names, actions[0]), r, names, actions[1..])
  }

  /** The history after round `r`: its diff, then the references made by its actions to
      files the diff left alone. */
  function RoundHistory(h: History, r: int, patch: seq<PatchedFile>, actions: seq<string>): History
  {
    var h1 := ApplyPatch(h, r, patch);
    ReferenceActions(h1, r, Untouched(KeysOf(h1), Paths(patch)), actions)
  }

  /** The body of the round loop in `build_data_structure`, given the round's parsed diff
      and the actions of its trajectory. */
  method RecordRound(h0: History, r: int, patch: seq<PatchedFile>, actions: seq<string>) returns (h: History)
    ensures h == RoundHistory(h0, r, patch, actions)
  {
    h := h0;
    for i := 0 to |patch|
      invariant ApplyPatch(h, r, patch[i..]) == ApplyPatch(h0, r, patch)
    {
      assert patch[i..][1..] == patch[i + 1..];
      var pf := patch[i];
      if pf.binary {
        continue;
      }
      var key := pf.path;
      if pf.kind == AddedFile {
        h := AppendEntry(h, key, Entry(r, Created, pf.added, 0));
      } else if pf.kind == RemovedFile {
        h := AppendEntry(h, key, Entry(r, Deleted, 0, pf.removed));
      } else if pf.kind == RenamedFile {
        var moved := Get(h, pf.source);
        if moved.Some? {
          h := Put(h, pf.target, moved.value);
          h := Remove(h, pf.source);
        }
        h := AppendEntry(h, pf.target, Entry(r, Renamed, pf.added, pf.removed));
      } else {
        h := AppendEntry(h, key, Entry(r, Modified, pf.added, pf.removed));
      }
    }
    assert patch[|patch|..] == [];
    ghost var h1 := h;
    var untouched := Untouched(KeysOf(h), Paths(patch));
    if |untouched| > 0 {
      for a := 0 to |actions|
        invariant ReferenceActions(h, r, untouched, actions[a..]) == ReferenceActions(h1, r, untouched, actions)
      {
        assert actions[a..][1..] == actions[a + 1..];
        ghost var before := h;
        for j := 0 to |untouched|
          invariant ReferenceAction(h, r, untouched[j..], actions[a]) == ReferenceAction(before, r, untouched, actions[a])
        {
          assert untouched[j..][1..] == untouched[j + 1..];
          if Contains(actions[a], Basename(untouched[j])) {
            h := AppendEntry(h, untouched[j], ReferenceEntry(r));
          }
        }
        assert untouched[|untouched|..] == [];
      }
      assert actions[|actions|..] == [];
    } else {
      NoNamesNoReferences(h, r, actions);
    }
  }

  lemma {:induction false} NoNamesNoReferences(h: History, r: int, actions: seq<string>)
    ensures ReferenceActions(h, r, [], actions) == h
    decreases |actions|
  {
    if actions != [] {
      NoNamesNoReferences(h, r, actions[1..]);
    }
  }

  // ---------------------------------------------------------------- what an update does

  /** `append` adds the entry to its own file and touches no other. */
  lemma AppendEntryLookup(h: History, k: string, e: Entry, k': string)
    ensures Lookup(AppendEntry(h, k, e), k') == if k' == k then Lookup(h, k) + [e] else Lookup(h, k')
    ensures Get(AppendEntry(h, k, e), k').Some? <==> k' == k || Get(h, k').Some?
  {
    PutGet(h, k, Lookup(h, k) + [e], k');
  }

  /** A binary file leaves the history as it is. */
  lemma BinaryIgnored(h: History, r: int, pf: PatchedFile)
    requires pf.binary
    ensures ApplyFile(h, r, pf) == h
  {
  }

  /** An added, removed or modified file appends its CREATED, DELETED or MODIFIED entry to
      its own history; every other file keeps its history. */
  lemma RecordedAtPath(h: History, r: int, pf: PatchedFile, k: string)
    requires !pf.binary && pf.kind != RenamedFile
    ensures Lookup(ApplyFile(h, r, pf), k) == if k == pf.path then Lookup(h, k) + [EntryFor(r, pf)] else Lookup(h, k)
    ensures EntryFor(r, pf).op == match pf.kind
                                  case AddedFile => Created
                                  case RemovedFile => Deleted
                                  case _ => Modified
  {
    AppendEntryLookup(h, pf.path, EntryFor(r, pf), k);
  }

  /** A rename moves the old name's history to the new name and appends a RENAMED entry
      there; the old name is gone, and every other file keeps its history. */
  lemma RenameMoves(h: History, r: int, pf: PatchedFile, k: string)
    requires !pf.binary && pf.kind == RenamedFile && pf.source != pf.target && Get(h, pf.source).Some?
    ensures Lookup(ApplyFile(h, r, pf), pf.target) == Lookup(h, pf.source) + [Entry(r, Renamed, pf.added, pf.removed)]
    ensures Get(ApplyFile(h, r, pf), pf.source).None?
    ensures k != pf.source && k != pf.target ==> Get(ApplyFile(h, r, pf), k) == Get(h, k)
  {
    var v := Get(h, pf.source).value;
    var moved := Remove(Put(h, pf.target, v), pf.source);
    PutGet(h, pf.target, v, k);
    RemoveGet(Put(h, pf.target, v), pf.source, k);
    PutGet(h, pf.target, v, pf.target);
    RemoveGet(Put(h, pf.target, v), pf.source, pf.target);
    RemoveGet(Put(h, pf.target, v), pf.source, pf.source);
    PutGet(moved, pf.target, Lookup(moved, pf.target) + [EntryFor(r, pf)], pf.source);
    PutGet(moved, pf.target, Lookup(moved, pf.target) + [EntryFor(r, pf)], pf.target);
    PutGet(moved, pf.target, Lookup(moved, pf.target) + [EntryFor(r, pf)], k);
  }

  /** A rename whose old name has no history starts or extends the new name's history with
      the RENAMED entry alone. */
  lemma RenameWithoutHistory(h: History, r: int, pf: PatchedFile, k: string)
    requires !pf.binary && pf.kind == RenamedFile && Get(h, pf.source).None?
    ensures Lookup(ApplyFile(h, r, pf), k)
            == if k == pf.target then Lookup(h, k) + [Entry(r, Renamed, pf.added, pf.removed)] else Lookup(h, k)
  {
    AppendEntryLookup(h, pf.target, EntryFor(r, pf), k);
  }

  // ---------------------------------------------------------------- references

  function Repeat(e: Entry, n: nat): (es: seq<Entry>)
    ensures |es| == n && forall i | 0 <= i < n :: es[i] == e
  {
    if n == 0 then [] else [e] + Repeat(e, n - 1)
  }

  /** How many times `k` occurs in `names`. */
  function Occurrences(names: seq<string>, k: string): nat
  {
    if names == [] then 0 else (if names[0] == k then 1 else 0) + Occurrences(names[1..], k)
  }

  /** How many actions mention the base name of `k`. */
  function Mentions(actions: seq<string>, k: string): nat
  {
    if actions == [] then 0 else (if Contains(actions[0], Basename(k)) then 1 else 0) + Mentions(actions[1..], k)
  }

  lemma RepeatAdd(e: Entry, m: nat, n: nat)
    ensures Repeat(e, m) + Repeat(e, n) == Repeat(e, m + n)
  {
  }

  lemma MulAdd(o: nat, c: nat, m: nat)
    ensures o * c + o * m == o * (c + m)
  {
  }

  /** `o` entries and `o * m` more are `o * (1 + m)` entries. */
  lemma RepeatMul(e: Entry, o: nat, m: nat)
    ensures Repeat(e, o) + Repeat(e, o * m) == Repeat(e, o * (1 + m))
  {
    RepeatAdd(e, o, o * m);
    MulAdd(o, 1, m);
  }

  lemma AppendAssoc<T>(a: seq<T>, b: seq<T>, c: seq<T>)
    ensures (a + b) + c == a + (b + c)
  {
  }

  /** One action adds a REFERENCED entry for each listing of a file whose base name it
      mentions. */
  lemma {:induction false} ReferenceActionLookup(h: History, r: int, names: seq<string>, action: string, k: string)
    ensures Lookup(ReferenceAction(h, r, names, action), k)
            == Lookup(h, k) + (if Contains(action, Basename(k)) then Repeat(ReferenceEntry(r), Occurrences(names, k)) else [])
    decreases |names|
  {
    var e := ReferenceEntry(r);
    if names == [] {
      assert Lookup(h, k) + [] == Lookup(h, k);
    } else {
      var n := names[0];
      var h' := if Contains(action, Basename(n)) then AppendEntry(h, n, e) else h;
      ReferenceActionLookup(h', r, names[1..], action, k);
      if Contains(action, Basename(n)) {
        AppendEntryLookup(h, n, e, k);
      }
      if Contains(action, Basename(k)) {
        var m := Occurrences(names[1..], k);
        if n == k {
          AppendAssoc(Lookup(h, k), [e], Repeat(e, m));
          RepeatAdd(e, 1, m);
        }
      } else {
        assert Lookup(h', k) == Lookup(h, k);
      }
    }
  }

  /** All actions: a file gains one REFERENCED entry per action that mentions its base name,
      per listing of it. */
  lemma {:induction false} ReferenceActionsLookup(h: History, r: int, names: seq<string>, actions: seq<string>, k: string)
    ensures Lookup(ReferenceActions(h, r, names, actions), k)
            == Lookup(h, k) + Repeat(ReferenceEntry(r), Occurrences(names, k) * Mentions(actions, k))
    decreases |actions|
  {
    var e := ReferenceEntry(r);
    if actions == [] {
      assert Lookup(h, k) + [] == Lookup(h, k);
    } else {
      var h' := ReferenceAction(h, r, names, actions[0]);
      ReferenceActionLookup(h, r, names, actions[0], k);
      ReferenceActionsLookup(h', r, names, actions[1..], k);
      RefsCompose(Lookup(h, k), e, Occurrences(names, k), Mentions(actions[1..], k),
                  Contains(actions[0], Basename(k)));
    }
  }

  /** One action's references followed by the rest's. */
  lemma RefsCompose(x: seq<Entry>, e: Entry, o: nat, m: nat, c: bool)
    ensures (x + (if c then Repeat(e, o) else [])) + Repeat(e, o * m)
            == x + Repeat(e, o * ((if c then 1 else 0) + m))
  {
    if c {
      AppendAssoc(x, Repeat(e, o), Repeat(e, o * m));
      RepeatMul(e, o, m);
    } else {
      assert x + [] == x;
    }
  }

  /** A name kept out of the untouched list because the diff names it, or because the
      history lacks it, is not listed; with distinct keys every other key is listed once. */
  lemma {:induction false} UntouchedOccurrences(keys: seq<string>, paths: seq<string>, k: string)
    requires forall i, j | 0 <= i < j < |keys| :: keys[i] != keys[j]
    ensures Occurrences(Untouched(keys, paths), k) == if k in keys && k !in paths then 1 else 0
    decreases |keys|
  {
    if keys != [] {
      UntouchedOccurrences(keys[1..], paths, k);
      var u := Untouched(keys[1..], paths);
      var head := if keys[0] in paths then [] else [keys[0]];
      assert Untouched(keys, paths) == head + u;
      OccurrencesAppend(head, u, k);
      if keys[0] == k {
        assert k !in keys[1..];
      }
    }
  }

  lemma {:induction false} OccurrencesAppend(a: seq<string>, b: seq<string>, k: string)
    ensures Occurrences(a + b, k) == Occurrences(a, k) + Occurrences(b, k)
    decreases |a|
  {
    if a != [] {
      assert (a + b)[0] == a[0] && (a + b)[1..] == a[1..] + b;
      OccurrencesAppend(a[1..], b, k);
    } else {
      assert a + b == b;
    }
  }

  /** The keys of a history with unique keys are distinct. */
  lemma DistinctKeys(h: History)
    requires UniqueKeys(h)
    ensures forall i, j | 0 <= i < j < |KeysOf(h)| :: KeysOf(h)[i] != KeysOf(h)[j]
  {
  }

  /** Updates keep the file names unique. */
  lemma ApplyFileUnique(h: History, r: int, pf: PatchedFile)
    requires UniqueKeys(h)
    ensures UniqueKeys(ApplyFile(h, r, pf))
  {
    if !pf.binary {
      var base := if pf.kind == RenamedFile then Transfer(h, pf.source, pf.target) else h;
      if pf.kind == RenamedFile && Get(h, pf.source).Some? {
        PutUnique(h, pf.target, Get(h, pf.source).value);
        RemoveUnique(Put(h, pf.target, Get(h, pf.source).value), pf.source);
      }
      PutUnique(base, KeyFor(pf), Lookup(base, KeyFor(pf)) + [EntryFor(r, pf)]);
    }
  }

  lemma {:induction false} ApplyPatchUnique(h: History, r: int, patch: seq<PatchedFile>)
    requires UniqueKeys(h)
    ensures UniqueKeys(ApplyPatch(h, r, patch))
    decreases |patch|
  {
    if patch != [] {
      ApplyFileUnique(h, r, patch[0]);
      ApplyPatchUnique(ApplyFile(h, r, patch[0]), r, patch[1..]);
    }
  }

  /** After a round, a file that the diff left alone gains, after its diff entries, one
      REFERENCED entry for each action that mentions its base name; a file the diff names
      gains none. */
  lemma RoundReferences(h: History, r: int, patch: seq<PatchedFile>, actions: seq<string>, k: string)
    requires UniqueKeys(h)
    ensures var h1 := ApplyPatch(h, r, patch);
            Lookup(RoundHistory(h, r, patch, actions), k)
            == Lookup(h1, k) + (if k in KeysOf(h1) && k !in Paths(patch)
                                then Repeat(ReferenceEntry(r), Mentions(actions, k)) else [])
  {
    var h1 := ApplyPatch(h, r, patch);
    var names := Untouched(KeysOf(h1), Paths(patch));
    var listed := k in KeysOf(h1) && k !in Paths(patch);
    var o := Occurrences(names, k);
    assert o == if listed then 1 else 0 by {
      ApplyPatchUnique(h, r, patch);
      DistinctKeys(h1);
      UntouchedOccurrences(KeysOf(h1), Paths(patch), k);
    }
    ReferenceActionsLookup(h1, r, names, actions, k);
    var m := Mentions(actions, k);
    if listed {
      assert o * m == m;
    } else {
      assert o * m == 0;
      assert Lookup(h1, k) + Repeat(ReferenceEntry(r), 0) == Lookup(h1, k) + [];
    }
  }
}
