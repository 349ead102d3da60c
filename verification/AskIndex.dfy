/**
 The index of kernel logs, docs, sources, notebooks and personal notes (eco/logs_ask.py `build_index`,
 `index_documents`, `_index_files`, `_forget_unlisted`, `_invalidate_old_api_items`): a file is read
 again only when its modification time or size changed.
 */
module AskIndex {
  import opened Collections
  import opened IndexTable

  type FileName = string

  /** Modification time and size: what decides whether a file is read again. */
  datatype Stamp = Stamp(mtime: real, size: nat)

  /** In what role a file is listed, with what its extraction depends on besides its content. */
  datatype Role =
    | Log
    | DocFile(prefix: string)
    | ApiFile(root: string, version: string)
    | ExampleFile(prefix: string)
    | NoteFile(ocr: string)

  datatype Source = Source(file: FileName, role: Role)

  /** The index: its rows and the stamp of every file when it was read. */
  datatype Index = Index(items: seq<Item>, files: map<FileName, Stamp>)

  /** What one call extracts a file with a stamp to in a role; None where extraction raises. */
  type Extraction = (FileName, Role, Stamp) -> Option<seq<Item>>

  /** The kinds of the rows of a file: a note's command lines have rows of their own. */
  function KindsOf(role: Role): set<Kind> {
    match role
    case Log => {Command}
    case DocFile(_) => {Doc}
    case ApiFile(_, _) => {Api}
    case ExampleFile(_) => {Example}
    case NoteFile(_) => {Note, NoteCommand}
  }

  ghost predicate RowsFit(extract: Extraction) {
    forall f, role, stamp :: extract(f, role, stamp).Some? ==> Fit(f, role, extract(f, role, stamp).value)
  }

  ghost predicate Fit(f: FileName, role: Role, rows: seq<Item>) {
    forall it :: it in rows ==> it.path == File(f) && it.kind in KindsOf(role)
  }

  function AtFile(f: FileName): Item -> bool { (it: Item) => it.path == File(f) }

  function FileRows(items: seq<Item>, f: FileName): seq<Item> { Filter(items, AtFile(f)) }

  function NotAtFile(f: FileName): Item -> bool { (it: Item) => it.path != File(f) }

  // ---------------------------------------------------------------- forgetting

  predicate FromListing(k: Kind) { k == Doc || k == Api || k == Example }

  /** A row of docs, api or examples whose file is not among `listed`. */
  predicate Unlisted(it: Item, listed: set<FileName>) { FromListing(it.kind) && it.path.File? && it.path.name !in listed }

  function StaleFiles(items: seq<Item>, listed: set<FileName>): set<FileName> {
    set it | it in items && Unlisted(it, listed) :: it.path.name
  }

  function StillListed(listed: set<FileName>): Item -> bool { it => !Unlisted(it, listed) }

  function UnlistedForgotten(ix: Index, listed: set<FileName>): Index {
    var stale := StaleFiles(ix.items, listed);
    Index(Filter(ix.items, StillListed(listed)), map f | f in ix.files && f !in stale :: ix.files[f])
  }

  function NotApi(): Item -> bool { (it: Item) => it.kind != Api }

  function ApiFiles(items: seq<Item>): set<FileName> {
    set it | it in items && it.kind == Api && it.path.File? :: it.path.name
  }

  /** Another version of the api extraction: forget the api rows and the stamps of their files. */
  function ApiForgotten(ix: Index): Index {
    Index(Filter(ix.items, NotApi()), map f | f in ix.files && f !in ApiFiles(ix.items) :: ix.files[f])
  }

  // ---------------------------------------------------------------- reading changed files

  /** One listed file: skipped when it is not there, unchanged or cannot be extracted; `known` are the
      stamps before the pass. */
  function OneIndexed(ix: Index, known: map<FileName, Stamp>, s: Source, disk: map<FileName, Stamp>, extract: Extraction): Index {
    if s.file !in disk || (s.file in known && known[s.file] == disk[s.file]) then ix
    else
      var rows := extract(s.file, s.role, disk[s.file]);
      if rows.None? then ix
      else Index(Filter(ix.items, NotAtFile(s.file)) + rows.value, ix.files[s.file := disk[s.file]])
  }

  function AllIndexed(ix: Index, sources: seq<Source>, disk: map<FileName, Stamp>, extract: Extraction): Index {
    if sources == [] then ix
    else
      OneIndexed(AllIndexed(ix, sources[..|sources| - 1], disk, extract), ix.files, sources[|sources| - 1], disk, extract)
  }

  function Listed(sources: seq<Source>): set<FileName> {
    set s | s in sources && !s.role.Log? && !s.role.NoteFile? :: s.file
  }

  function Built(ix: Index, newApi: bool, sources: seq<Source>, disk: map<FileName, Stamp>, extract: Extraction): Index {
    AllIndexed(UnlistedForgotten(if newApi then ApiForgotten(ix) else ix, Listed(sources)), sources, disk, extract)
  }

  // ---------------------------------------------------------------- what is kept

  /** A file as it was last read: its role, its stamp and the rows extracted then. */
  datatype Reading = Reading(role: Role, stamp: Stamp, rows: seq<Item>)

  /** Every file with a stamp has the rows and the stamp of its last reading; a row of docs, api or examples
      belongs to such a file. */
  ghost predicate Kept(ix: Index, got: map<FileName, Reading>) {
    && (forall f :: f in ix.files ==> FileKept(ix, got, f))
    && (forall it :: it in ix.items && FromListing(it.kind) ==> it.path.File? && it.path.name in ix.files)
  }

  ghost predicate FileKept(ix: Index, got: map<FileName, Reading>, f: FileName) {
    && f in ix.files && f in got && got[f].stamp == ix.files[f] && FileRows(ix.items, f) == got[f].rows
    && Fit(f, got[f].role, got[f].rows)
  }

  lemma RowsOfFile(items: seq<Item>, f: FileName, it: Item)
    ensures it in FileRows(items, f) <==> it in items && it.path == File(f)
  {
    FilterMember(items, AtFile(f), it);
  }

  /** Forgetting by kind takes all rows of a file or none, and the stamps of exactly those it takes. */
  lemma ForgettingKeeps(ix: Index, got: map<FileName, Reading>, keep: Item -> bool, gone: set<FileName>)
    requires Kept(ix, got)
    requires forall it :: it in ix.items && !keep(it) ==> FromListing(it.kind) && it.path.File? && it.path.name in gone
    requires forall f, it :: f in gone && it in ix.items && it.path == File(f) && FromListing(it.kind) ==> !keep(it)
    ensures Kept(Index(Filter(ix.items, keep), map f | f in ix.files && f !in gone :: ix.files[f]), got)
  {
    var ix' := Index(Filter(ix.items, keep), map f | f in ix.files && f !in gone :: ix.files[f]);
    forall f | f in ix'.files ensures FileKept(ix', got, f) {
      assert FileKept(ix, got, f);
      FilterTwice(ix.items, keep, AtFile(f), AtFile(f));
    }
    forall it | it in ix'.items && FromListing(it.kind) ensures it.path.File? && it.path.name in ix'.files {
      FilterMember(ix.items, keep, it);
    }
  }

  lemma UnlistedForgottenKeeps(ix: Index, got: map<FileName, Reading>, listed: set<FileName>)
    requires Kept(ix, got)
    ensures Kept(UnlistedForgotten(ix, listed), got)
    ensures forall it :: it in UnlistedForgotten(ix, listed).items ==> !Unlisted(it, listed)
  {
    ForgettingKeeps(ix, got, StillListed(listed), StaleFiles(ix.items, listed));
    forall it | it in UnlistedForgotten(ix, listed).items ensures !Unlisted(it, listed) {
      FilterMember(ix.items, StillListed(listed), it);
    }
  }

  lemma ApiForgottenKeeps(ix: Index, got: map<FileName, Reading>)
    requires Kept(ix, got)
    ensures Kept(ApiForgotten(ix), got)
  {
    forall f, it | f in ApiFiles(ix.items) && it in ix.items && it.path == File(f) && FromListing(it.kind)
      ensures !NotApi()(it)
    {
      var a :| a in ix.items && a.kind == Api && a.path == File(f);
      assert f in ix.files && FileKept(ix, got, f);
      RowsOfFile(ix.items, f, a);
      RowsOfFile(ix.items, f, it);
    }
    ForgettingKeeps(ix, got, NotApi(), ApiFiles(ix.items));
  }

  // ---------------------------------------------------------------- one pass over the sources

  /** Whether a pass reads a file again. */
  predicate ReadAgain(known: map<FileName, Stamp>, s: Source, disk: map<FileName, Stamp>, extract: Extraction) {
    s.file in disk && !(s.file in known && known[s.file] == disk[s.file]) && extract(s.file, s.role, disk[s.file]).Some?
  }

  lemma OneIndexedRows(ix: Index, known: map<FileName, Stamp>, s: Source, disk: map<FileName, Stamp>, extract: Extraction, f: FileName)
    requires RowsFit(extract)
    ensures var ix' := OneIndexed(ix, known, s, disk, extract);
            if f == s.file && ReadAgain(known, s, disk, extract)
            then FileRows(ix'.items, f) == extract(f, s.role, disk[f]).value && f in ix'.files && ix'.files[f] == disk[f]
            else FileRows(ix'.items, f) == FileRows(ix.items, f) && (f in ix'.files <==> f in ix.files)
                 && (f in ix.files ==> ix'.files[f] == ix.files[f])
  {
    if ReadAgain(known, s, disk, extract) {
      var rows := extract(s.file, s.role, disk[s.file]).value;
      FilterConcat(Filter(ix.items, NotAtFile(s.file)), rows, AtFile(f));
      if f == s.file {
        FilterTwice(ix.items, NotAtFile(s.file), AtFile(f), (it: Item) => false);
        FilterNone(ix.items, (it: Item) => false);
        FilterAll(rows, AtFile(f));
      } else {
        FilterTwice(ix.items, NotAtFile(s.file), AtFile(f), AtFile(f));
        FilterNone(rows, AtFile(f));
      }
    }
  }

  /** The role of the last listing of a file that is read in a pass: overlapping directories list a
      file more than once. */
  function LastRead(known: map<FileName, Stamp>, sources: seq<Source>, disk: map<FileName, Stamp>, extract: Extraction,
                    f: FileName): Option<Role>
  {
    if sources == [] then None
    else
      var s := sources[|sources| - 1];
      if s.file == f && ReadAgain(known, s, disk, extract) then Some(s.role)
      else LastRead(known, sources[..|sources| - 1], disk, extract, f)
  }

  /** A listing that is read gives the role if no later listing of the file is read. */
  lemma {:induction false} LastListingWins(known: map<FileName, Stamp>, sources: seq<Source>, disk: map<FileName, Stamp>,
                                           extract: Extraction, i: nat)
    requires i < |sources| && ReadAgain(known, sources[i], disk, extract)
    requires forall j :: i < j < |sources| && sources[j].file == sources[i].file ==> !ReadAgain(known, sources[j], disk, extract)
    ensures LastRead(known, sources, disk, extract, sources[i].file) == Some(sources[i].role)
  {
    var front := sources[..|sources| - 1];
    if i < |front| {
      assert forall j :: 0 <= j < |front| ==> front[j] == sources[j];
      LastListingWins(known, front, disk, extract, i);
    }
  }

  lemma {:induction false} ReadIfListed(known: map<FileName, Stamp>, sources: seq<Source>, disk: map<FileName, Stamp>,
                                        extract: Extraction, f: FileName)
    ensures LastRead(known, sources, disk, extract, f).Some? <==>
            exists s :: s in sources && s.file == f && ReadAgain(known, s, disk, extract)
  {
    if sources != [] {
      var front, last := sources[..|sources| - 1], sources[|sources| - 1];
      assert sources == front + [last];
      ReadIfListed(known, front, disk, extract, f);
    }
  }

  /** A file's rows and stamp after a pass: those of the last listing that was read, else as before. */
  lemma {:induction false} AllIndexedRows(ix: Index, sources: seq<Source>, disk: map<FileName, Stamp>, extract: Extraction, f: FileName)
    requires RowsFit(extract)
    ensures var ix', role := AllIndexed(ix, sources, disk, extract), LastRead(ix.files, sources, disk, extract, f);
            if role.Some?
            then f in disk && Some(FileRows(ix'.items, f)) == extract(f, role.value, disk[f]) && f in ix'.files && ix'.files[f] == disk[f]
            else FileRows(ix'.items, f) == FileRows(ix.items, f) && (f in ix'.files <==> f in ix.files)
                 && (f in ix.files ==> ix'.files[f] == ix.files[f])
  {
    if sources != [] {
      var front, s := sources[..|sources| - 1], sources[|sources| - 1];
      AllIndexedRows(ix, front, disk, extract, f);
      OneIndexedRows(AllIndexed(ix, front, disk, extract), ix.files, s, disk, extract, f);
    }
  }

  // ---------------------------------------------------------------- a whole build

  /** The last readings after a pass. */
  ghost function ReadingsAfter(ix: Index, got: map<FileName, Reading>, sources: seq<Source>, disk: map<FileName, Stamp>,
                               extract: Extraction): map<FileName, Reading>
  {
    map f | f in got.Keys + (set s | s in sources && ReadAgain(ix.files, s, disk, extract) :: s.file) ::
      var role := LastRead(ix.files, sources, disk, extract, f);
      if role.Some? && f in disk && extract(f, role.value, disk[f]).Some?
      then Reading(role.value, disk[f], extract(f, role.value, disk[f]).value)
      else if f in got then got[f] else Reading(Log, Stamp(0.0, 0), [])
  }

  lemma {:induction false} AllIndexedFileKept(ix: Index, got: map<FileName, Reading>, sources: seq<Source>, disk: map<FileName, Stamp>,
                           extract: Extraction, f: FileName)
    requires Kept(ix, got) && RowsFit(extract)
    requires f in AllIndexed(ix, sources, disk, extract).files
    ensures FileKept(AllIndexed(ix, sources, disk, extract), ReadingsAfter(ix, got, sources, disk, extract), f)
  {
    AllIndexedRows(ix, sources, disk, extract, f);
    ReadIfListed(ix.files, sources, disk, extract, f);
    if LastRead(ix.files, sources, disk, extract, f).None? {
      assert FileKept(ix, got, f);
    }
  }

  lemma {:induction false} AllIndexedMember(ix: Index, sources: seq<Source>, disk: map<FileName, Stamp>, extract: Extraction, it: Item)
    requires RowsFit(extract) && it in AllIndexed(ix, sources, disk, extract).items
    ensures it in ix.items || exists s :: s in sources && it.path == File(s.file) && it.kind in KindsOf(s.role)
                                          && s.file in AllIndexed(ix, sources, disk, extract).files
    ensures forall f :: f in ix.files ==> f in AllIndexed(ix, sources, disk, extract).files
  {
    if sources != [] {
      var front, s := sources[..|sources| - 1], sources[|sources| - 1];
      assert sources == front + [s];
      var before := AllIndexed(ix, front, disk, extract);
      if it in before.items {
        AllIndexedMember(ix, front, disk, extract, it);
        if it !in ix.items {
          var t :| t in front && it.path == File(t.file) && it.kind in KindsOf(t.role) && t.file in before.files;
          assert t in sources;
        }
      } else {
        FilterMember(before.items, NotAtFile(s.file), it);
        assert s in sources && it in extract(s.file, s.role, disk[s.file]).value;
        StampsStay(ix, front, disk, extract);
      }
    }
  }

  lemma {:induction false} StampsStay(ix: Index, sources: seq<Source>, disk: map<FileName, Stamp>, extract: Extraction)
    ensures forall f :: f in ix.files ==> f in AllIndexed(ix, sources, disk, extract).files
  {
    if sources != [] { StampsStay(ix, sources[..|sources| - 1], disk, extract); }
  }

  /** A build keeps every file's rows tied to its stamp, and leaves no row of docs, api or examples of a
      file that is no longer listed. */
  lemma BuildKeeps(ix: Index, got: map<FileName, Reading>, newApi: bool, sources: seq<Source>, disk: map<FileName, Stamp>,
                   extract: Extraction)
    requires Kept(ix, got) && RowsFit(extract)
    ensures var ix1 := UnlistedForgotten(if newApi then ApiForgotten(ix) else ix, Listed(sources));
            Kept(ix1, got)
            && Kept(Built(ix, newApi, sources, disk, extract), ReadingsAfter(ix1, got, sources, disk, extract))
    ensures forall it :: it in Built(ix, newApi, sources, disk, extract).items ==> !Unlisted(it, Listed(sources))
  {
    if newApi { ApiForgottenKeeps(ix, got); }
    var ix0 := if newApi then ApiForgotten(ix) else ix;
    UnlistedForgottenKeeps(ix0, got, Listed(sources));
    var ix1 := UnlistedForgotten(ix0, Listed(sources));
    var ix2 := AllIndexed(ix1, sources, disk, extract);
    PassKeeps(ix1, got, sources, disk, extract);
    forall it | it in ix2.items ensures !Unlisted(it, Listed(sources)) {
      AllIndexedMember(ix1, sources, disk, extract, it);
    }
  }

  /** After a pass over listed files, a file that can be read has exactly the rows a fresh extraction in
      the listing's role gives, if and only if the last listing of the file that was read gives the same
      or, if the file was skipped, its last reading gave the same. A file no listing of which can be
      extracted keeps its rows and is tried again next time. */
  ghost predicate FreshIff(before: Index, after: Index, got: map<FileName, Reading>, sources: seq<Source>,
                           disk: map<FileName, Stamp>, extract: Extraction, s: Source)
    requires s.file in disk
  {
    var anew := extract(s.file, s.role, disk[s.file]);
    var skipped := s.file in before.files && before.files[s.file] == disk[s.file];
    var read := LastRead(before.files, sources, disk, extract, s.file);
    && (anew.Some? && !skipped ==>
          read.Some? && (FileRows(after.items, s.file) == anew.value <==> extract(s.file, read.value, disk[s.file]) == anew))
    && (anew.Some? && skipped ==>
          s.file in got && got[s.file].stamp == disk[s.file]
          && (FileRows(after.items, s.file) == anew.value <==> got[s.file].rows == anew.value))
    && (read.None? && !skipped ==>
          FileRows(after.items, s.file) == FileRows(before.items, s.file)
          && !(s.file in after.files && after.files[s.file] == disk[s.file]))
  }

  lemma {:induction false} PassIsFreshIff(ix: Index, got: map<FileName, Reading>, sources: seq<Source>, disk: map<FileName, Stamp>,
                       extract: Extraction, s: Source)
    requires Kept(ix, got) && RowsFit(extract) && s in sources && s.file in disk
    ensures FreshIff(ix, AllIndexed(ix, sources, disk, extract), got, sources, disk, extract, s)
  {
    AllIndexedRows(ix, sources, disk, extract, s.file);
    ReadIfListed(ix.files, sources, disk, extract, s.file);
    assert s.file in ix.files ==> FileKept(ix, got, s.file);
  }

  // ---------------------------------------------------------------- builds and notes in any order

  /** A build, or personal notes indexed; the stamps on disk at that time and what extraction gives then. */
  datatype Call =
    | Build(newApi: bool, sources: seq<Source>, disk: map<FileName, Stamp>, extract: Extraction)
    | Notes(sources: seq<Source>, disk: map<FileName, Stamp>, extract: Extraction)

  /** The index as the reading pass of a call finds it. */
  function BeforePass(ix: Index, call: Call): Index {
    match call
    case Build(newApi, sources, _, _) => UnlistedForgotten(if newApi then ApiForgotten(ix) else ix, Listed(sources))
    case Notes(_, _, _) => ix
  }

  function AfterCall(ix: Index, call: Call): Index {
    AllIndexed(BeforePass(ix, call), call.sources, call.disk, call.extract)
  }

  const EMPTY_INDEX := Index([], map[])

  function AfterCalls(calls: seq<Call>): Index {
    if calls == [] then EMPTY_INDEX
    else AfterCall(AfterCalls(calls[..|calls| - 1]), calls[|calls| - 1])
  }

  /** How each file was last read. */
  ghost function LastReadings(calls: seq<Call>): map<FileName, Reading> {
    if calls == [] then map[]
    else
      var front, call := calls[..|calls| - 1], calls[|calls| - 1];
      ReadingsAfter(BeforePass(AfterCalls(front), call), LastReadings(front), call.sources, call.disk, call.extract)
  }

  ghost predicate AllFit(calls: seq<Call>) { forall call :: call in calls ==> RowsFit(call.extract) }

  lemma {:induction false} PassKeeps(ix: Index, got: map<FileName, Reading>, sources: seq<Source>, disk: map<FileName, Stamp>,
                                     extract: Extraction)
    requires Kept(ix, got) && RowsFit(extract)
    ensures Kept(AllIndexed(ix, sources, disk, extract), ReadingsAfter(ix, got, sources, disk, extract))
  {
    var ix2 := AllIndexed(ix, sources, disk, extract);
    forall f | f in ix2.files ensures FileKept(ix2, ReadingsAfter(ix, got, sources, disk, extract), f) {
      AllIndexedFileKept(ix, got, sources, disk, extract, f);
    }
    forall it | it in ix2.items && FromListing(it.kind) ensures it.path.File? && it.path.name in ix2.files {
      AllIndexedMember(ix, sources, disk, extract, it);
    }
  }

  lemma BeforePassKept(ix: Index, got: map<FileName, Reading>, call: Call)
    requires Kept(ix, got)
    ensures Kept(BeforePass(ix, call), got)
  {
    match call
    case Build(newApi, sources, _, _) =>
      if newApi { ApiForgottenKeeps(ix, got); }
      UnlistedForgottenKeeps(if newApi then ApiForgotten(ix) else ix, got, Listed(sources));
    case Notes(_, _, _) =>
  }

  /** Over builds and notes indexed in any order, with any files and labels, whatever each call extracts
      them to: every file with a stamp has exactly the rows and the stamp of its last reading. */
  lemma {:induction false} CallsKeep(calls: seq<Call>)
    requires AllFit(calls)
    ensures Kept(AfterCalls(calls), LastReadings(calls))
  {
    if calls != [] {
      var front, call := calls[..|calls| - 1], calls[|calls| - 1];
      CallsKeep(front);
      BeforePassKept(AfterCalls(front), LastReadings(front), call);
      assert call in calls;
      PassKeeps(BeforePass(AfterCalls(front), call), LastReadings(front), call.sources, call.disk, call.extract);
    }
  }

  lemma {:induction false} OneMoreCall(calls: seq<Call>, call: Call)
    ensures AfterCalls(calls + [call]) == AfterCall(AfterCalls(calls), call)
  {
    assert (calls + [call])[..|calls|] == calls;
  }

  /** After builds and notes in any order, and one more of either: when a listed file has exactly the rows
      of a fresh extraction. A file listed under another label, or as a doc after it was indexed as a
      note, is not read again. */
  lemma {:induction false} FreshIffReadOrSame(calls: seq<Call>, call: Call, i: nat)
    requires AllFit(calls) && RowsFit(call.extract) && i < |call.sources| && call.sources[i].file in call.disk
    ensures var ix := AfterCalls(calls);
            && AfterCalls(calls + [call]) == AfterCall(ix, call)
            && FreshIff(BeforePass(ix, call), AfterCall(ix, call), LastReadings(calls),
                        call.sources, call.disk, call.extract, call.sources[i])
  {
    OneMoreCall(calls, call);
    CallsKeep(calls);
    BeforePassKept(AfterCalls(calls), LastReadings(calls), call);
    PassIsFreshIff(BeforePass(AfterCalls(calls), call), LastReadings(calls), call.sources, call.disk, call.extract, call.sources[i]);
  }

  // ---------------------------------------------------------------- when the stamp determines the content

  /** What a file with a stamp is extracted to in a role, when that does not raise. */
  type Content = (FileName, Role, Stamp) -> seq<Item>

  ghost predicate Agrees(extract: Extraction, content: Content) {
    forall f, role, stamp :: extract(f, role, stamp).Some? ==> extract(f, role, stamp).value == content(f, role, stamp)
  }

  ghost predicate AllAgree(calls: seq<Call>, content: Content) { forall call :: call in calls ==> Agrees(call.extract, content) }

  ghost predicate ReadingsAgree(got: map<FileName, Reading>, files: set<FileName>, content: Content) {
    forall f :: f in got && f in files ==> got[f].rows == content(f, got[f].role, got[f].stamp)
  }

  lemma {:induction false} LastReadingsAgree(calls: seq<Call>, content: Content)
    requires AllAgree(calls, content)
    ensures ReadingsAgree(LastReadings(calls), LastReadings(calls).Keys, content)
  {
    if calls != [] {
      var front, call := calls[..|calls| - 1], calls[|calls| - 1];
      LastReadingsAgree(front, content);
      assert call in calls;
      var ix := BeforePass(AfterCalls(front), call);
      forall f | f in LastReadings(calls)
        ensures var got := LastReadings(calls)[f]; got.rows == content(f, got.role, got.stamp)
      {
        ReadIfListed(ix.files, call.sources, call.disk, call.extract, f);
        ReadIsExtracted(ix.files, call.sources, call.disk, call.extract, f);
      }
    }
  }

  lemma {:induction false} ReadIsExtracted(known: map<FileName, Stamp>, sources: seq<Source>, disk: map<FileName, Stamp>,
                                           extract: Extraction, f: FileName)
    ensures var role := LastRead(known, sources, disk, extract, f);
            role.Some? ==> f in disk && extract(f, role.value, disk[f]).Some?
  {
    if sources != [] { ReadIsExtracted(known, sources[..|sources| - 1], disk, extract, f); }
  }

  /** When the stamp determines the content, although a file may fail in one call and not in another: a
      listed file that can be read has exactly the rows of its present content in the listing's role, if
      and only if the role it was last read in, now or before, gives the same. */
  lemma {:induction false} FreshIffReadOrSameRole(calls: seq<Call>, call: Call, content: Content, i: nat)
    requires AllFit(calls) && RowsFit(call.extract) && AllAgree(calls, content) && Agrees(call.extract, content)
    requires i < |call.sources| && call.sources[i].file in call.disk
    ensures var s := call.sources[i];
            var stamp, ix := call.disk[s.file], BeforePass(AfterCalls(calls), call);
            var skipped, read := s.file in ix.files && ix.files[s.file] == stamp,
                                 LastRead(ix.files, call.sources, call.disk, call.extract, s.file);
            call.extract(s.file, s.role, stamp).Some? ==>
              && (skipped ==> s.file in LastReadings(calls)) && (!skipped ==> read.Some?)
              && (FileRows(AfterCalls(calls + [call]).items, s.file) == content(s.file, s.role, stamp) <==>
                  content(s.file, if skipped then LastReadings(calls)[s.file].role else read.value, stamp)
                  == content(s.file, s.role, stamp))
  {
    FreshIffReadOrSame(calls, call, i);
    LastReadingsAgree(calls, content);
    ReadIsExtracted(BeforePass(AfterCalls(calls), call).files, call.sources, call.disk, call.extract, call.sources[i].file);
  }

  // ---------------------------------------------------------------- a file that failed

  lemma BeforePassForgets(ix: Index, call: Call, f: FileName)
    ensures f in BeforePass(ix, call).files ==> f in ix.files && BeforePass(ix, call).files[f] == ix.files[f]
  {
  }

  /** No listing of the file can be extracted. */
  ghost predicate Fails(call: Call, f: FileName) {
    f in call.disk && forall s :: s in call.sources && s.file == f ==> call.extract(f, s.role, call.disk[f]).None?
  }

  /** A file that was to be read and failed is read by the next call that lists it and can extract it,
      although its stamp is the same; rows it had before stay until then. */
  lemma {:induction false} FailureIsRetried(calls: seq<Call>, first: Call, second: Call, i: nat)
    requires AllFit(calls) && RowsFit(first.extract) && RowsFit(second.extract) && i < |second.sources|
    requires var f := second.sources[i].file;
             && Fails(first, f) && f in second.disk && second.disk[f] == first.disk[f]
             && !(f in BeforePass(AfterCalls(calls), first).files && BeforePass(AfterCalls(calls), first).files[f] == first.disk[f])
             && second.extract(f, second.sources[i].role, second.disk[f]).Some?
    requires forall j :: i < j < |second.sources| && second.sources[j].file == second.sources[i].file ==>
               second.extract(second.sources[j].file, second.sources[j].role, second.disk[second.sources[j].file]).None?
    ensures var f := second.sources[i].file;
            && FileRows(AfterCalls(calls + [first]).items, f) == FileRows(BeforePass(AfterCalls(calls), first).items, f)
            && Some(FileRows(AfterCalls(calls + [first, second]).items, f)) == second.extract(f, second.sources[i].role, second.disk[f])
  {
    var f := second.sources[i].file;
    var ix1 := AfterCalls(calls + [first]);
    OneMoreCall(calls, first);
    FailureKeepsRows(BeforePass(AfterCalls(calls), first), first, f);
    BeforePassForgets(ix1, second, f);
    var ix2 := BeforePass(ix1, second);
    LastListingWins(ix2.files, second.sources, second.disk, second.extract, i);
    AllIndexedRows(ix2, second.sources, second.disk, second.extract, f);
    Associative(calls, [first], [second]);
    assert [first] + [second] == [first, second];
    OneMoreCall(calls + [first], second);
  }

  lemma {:induction false} FailureKeepsRows(ix: Index, call: Call, f: FileName)
    requires RowsFit(call.extract) && Fails(call, f) && !(f in ix.files && ix.files[f] == call.disk[f])
    ensures var ix' := AllIndexed(ix, call.sources, call.disk, call.extract);
            FileRows(ix'.items, f) == FileRows(ix.items, f) && !(f in ix'.files && ix'.files[f] == call.disk[f])
  {
    ReadIfListed(ix.files, call.sources, call.disk, call.extract, f);
    AllIndexedRows(ix, call.sources, call.disk, call.extract, f);
  }

  // ---------------------------------------------------------------- another role

  /** An extraction whose rows carry the label of their directory; a note has one row. */
  function LabelRows(): Extraction {
    (f: FileName, role: Role, st: Stamp) =>
      if role.DocFile? then Some([Item(role.prefix, "", Doc, 0.0, File(f))])
      else if role.NoteFile? then Some([Item("note", "", Note, 0.0, File(f))])
      else Some([])
  }

  /** A file indexed once and listed again in another role with the same stamp keeps its rows. */
  lemma SkippedStays(before: Index, file: FileName, stamp: Stamp, role: Role, extract: Extraction)
    requires !role.Log? && !role.NoteFile? && before.files == map[file := stamp]
    requires forall it :: it in before.items ==> it.path == File(file)
    ensures Built(before, false, [Source(file, role)], map[file := stamp], extract) == before
  {
    var sources := [Source(file, role)];
    assert sources[0] in sources && file in Listed(sources);
    NothingToForget(before, Listed(sources));
    NothingRead(before, sources, map[file := stamp], extract);
  }

  lemma OneFileIndexed(file: FileName, stamp: Stamp, role: Role, extract: Extraction)
    requires extract(file, role, stamp).Some? && RowsFit(extract)
    ensures AllIndexed(EMPTY_INDEX, [Source(file, role)], map[file := stamp], extract)
            == Index(extract(file, role, stamp).value, map[file := stamp])
  {
    var sources := [Source(file, role)];
    assert sources[..0] == [];
    assert Filter<Item>([], NotAtFile(file)) == [];
    assert [] + extract(file, role, stamp).value == extract(file, role, stamp).value;
  }

  lemma BuildOfOneFile(file: FileName, stamp: Stamp, role: Role, extract: Extraction)
    requires extract(file, role, stamp).Some? && RowsFit(extract)
    ensures Built(EMPTY_INDEX, false, [Source(file, role)], map[file := stamp], extract)
            == Index(extract(file, role, stamp).value, map[file := stamp])
  {
    NothingToForget(EMPTY_INDEX, Listed([Source(file, role)]));
    OneFileIndexed(file, stamp, role, extract);
  }

  lemma TwoCalls(first: Call, second: Call)
    ensures AfterCalls([first, second]) == AfterCall(AfterCall(EMPTY_INDEX, first), second)
  {
    assert [first, second][..1] == [first] && [first][..0] == [];
    assert AfterCalls([first]) == AfterCall(EMPTY_INDEX, first);
  }

  lemma LabelRowsFit()
    ensures RowsFit(LabelRows())
  {
  }

  /** A file listed first in one role and then, unchanged, in another keeps its row. */
  lemma SecondRoleIsSkipped(file: FileName, stamp: Stamp, first: Role, second: Role, row: Item, extract: Extraction)
    requires RowsFit(extract) && extract(file, first, stamp) == Some([row])
    requires !second.Log? && !second.NoteFile?
    ensures var disk := map[file := stamp];
            AfterCalls([Build(false, [Source(file, first)], disk, extract), Build(false, [Source(file, second)], disk, extract)])
            == Index([row], disk)
  {
    var disk := map[file := stamp];
    TwoCalls(Build(false, [Source(file, first)], disk, extract), Build(false, [Source(file, second)], disk, extract));
    BuildOfOneFile(file, stamp, first, extract);
    SkippedStays(Index([row], disk), file, stamp, second, extract);
  }

  /** An example: a directory of docs whose label changed keeps its rows under the old one. */
  lemma RelabelledDocsStayOld(file: FileName, stamp: Stamp)
    ensures var disk := map[file := stamp];
            var calls := [Build(false, [Source(file, DocFile("old"))], disk, LabelRows()), Build(false, [Source(file, DocFile("new"))], disk, LabelRows())];
            AfterCalls(calls).items == [Item("old", "", Doc, 0.0, File(file))]
  {
    LabelRowsFit();
    SecondRoleIsSkipped(file, stamp, DocFile("old"), DocFile("new"), Item("old", "", Doc, 0.0, File(file)), LabelRows());
  }

  lemma NoteThenDoc(file: FileName, stamp: Stamp, second: Role, row: Item, extract: Extraction)
    requires RowsFit(extract) && extract(file, NoteFile(""), stamp) == Some([row])
    requires !second.Log? && !second.NoteFile?
    ensures var disk := map[file := stamp];
            AfterCalls([Notes([Source(file, NoteFile(""))], disk, extract), Build(false, [Source(file, second)], disk, extract)])
            == Index([row], disk)
  {
    var disk := map[file := stamp];
    TwoCalls(Notes([Source(file, NoteFile(""))], disk, extract), Build(false, [Source(file, second)], disk, extract));
    OneFileIndexed(file, stamp, NoteFile(""), extract);
    SkippedStays(Index([row], disk), file, stamp, second, extract);
  }

  /** A file that was indexed as a note gets no rows when it is listed as a doc. */
  lemma NoteNeverBecomesDoc(file: FileName, stamp: Stamp)
    ensures var disk := map[file := stamp];
            var calls := [Notes([Source(file, NoteFile(""))], disk, LabelRows()), Build(false, [Source(file, DocFile("docs"))], disk, LabelRows())];
            && AfterCalls(calls).items == [Item("note", "", Note, 0.0, File(file))]
            && LabelRows()(file, DocFile("docs"), stamp) == Some([Item("docs", "", Doc, 0.0, File(file))])
  {
    LabelRowsFit();
    NoteThenDoc(file, stamp, DocFile("docs"), Item("note", "", Note, 0.0, File(file)), LabelRows());
  }

  // ---------------------------------------------------------------- what a build leaves alone

  /** Rows of SciLog, the elog, notes and anything else that is neither docs, api or examples nor of a
      listed file. */
  function Outside(files: set<FileName>): Item -> bool {
    (it: Item) => !FromListing(it.kind) && !(it.path.File? && it.path.name in files)
  }

  ghost function FilesOf(sources: seq<Source>): set<FileName> { set s | s in sources :: s.file }

  lemma {:induction false} AllIndexedLeavesOutside(ix: Index, sources: seq<Source>, disk: map<FileName, Stamp>, extract: Extraction,
                                                   files: set<FileName>)
    requires RowsFit(extract) && forall s :: s in sources ==> s.file in files
    ensures Filter(AllIndexed(ix, sources, disk, extract).items, Outside(files)) == Filter(ix.items, Outside(files))
  {
    if sources != [] {
      var front, s := sources[..|sources| - 1], sources[|sources| - 1];
      assert sources == front + [s];
      AllIndexedLeavesOutside(ix, front, disk, extract, files);
      var before := AllIndexed(ix, front, disk, extract);
      if ReadAgain(ix.files, s, disk, extract) {
        var rows := extract(s.file, s.role, disk[s.file]).value;
        FilterConcat(Filter(before.items, NotAtFile(s.file)), rows, Outside(files));
        FilterTwice(before.items, NotAtFile(s.file), Outside(files), Outside(files));
        FilterNone(rows, Outside(files));
      }
    }
  }

  /** A build leaves everything else as it is, in order. */
  lemma BuildLeavesOutside(ix: Index, newApi: bool, sources: seq<Source>, disk: map<FileName, Stamp>, extract: Extraction)
    requires RowsFit(extract)
    ensures Filter(Built(ix, newApi, sources, disk, extract).items, Outside(FilesOf(sources)))
            == Filter(ix.items, Outside(FilesOf(sources)))
  {
    var ix0 := if newApi then ApiForgotten(ix) else ix;
    var outside := Outside(FilesOf(sources));
    FilterTwice(ix.items, NotApi(), outside, outside);
    FilterTwice(ix0.items, StillListed(Listed(sources)), outside, outside);
    AllIndexedLeavesOutside(UnlistedForgotten(ix0, Listed(sources)), sources, disk, extract, FilesOf(sources));
  }

  lemma NothingToForget(ix: Index, listed: set<FileName>)
    requires forall it :: it in ix.items ==> !Unlisted(it, listed)
    ensures UnlistedForgotten(ix, listed) == ix
  {
    FilterAll(ix.items, StillListed(listed));
    assert StaleFiles(ix.items, listed) == {};
  }

  lemma NothingLeftToRead(ix: Index, newApi: bool, sources: seq<Source>, disk: map<FileName, Stamp>, extract: Extraction)
    requires RowsFit(extract)
    requires forall s :: s in sources && s.file in disk ==> extract(s.file, s.role, disk[s.file]).Some?
    ensures forall s :: s in sources ==> !ReadAgain(Built(ix, newApi, sources, disk, extract).files, s, disk, extract)
  {
    var built := Built(ix, newApi, sources, disk, extract);
    var ix1 := UnlistedForgotten(if newApi then ApiForgotten(ix) else ix, Listed(sources));
    forall s | s in sources ensures !ReadAgain(built.files, s, disk, extract) {
      AllIndexedRows(ix1, sources, disk, extract, s.file);
      ReadIfListed(ix1.files, sources, disk, extract, s.file);
    }
  }

  /** After builds and notes in any order, building again with nothing changed reads nothing and changes
      nothing. */
  lemma {:induction false} BuildAgainChangesNothing(calls: seq<Call>, newApi: bool, sources: seq<Source>, disk: map<FileName, Stamp>,
                                 extract: Extraction)
    requires AllFit(calls) && RowsFit(extract)
    requires forall s :: s in sources && s.file in disk ==> extract(s.file, s.role, disk[s.file]).Some?
    ensures var built := Built(AfterCalls(calls), newApi, sources, disk, extract);
            && (forall s :: s in sources ==> !ReadAgain(built.files, s, disk, extract))
            && Built(built, false, sources, disk, extract) == built
  {
    var ix := AfterCalls(calls);
    var built := Built(ix, newApi, sources, disk, extract);
    CallsKeep(calls);
    BuildKeeps(ix, LastReadings(calls), newApi, sources, disk, extract);
    NothingLeftToRead(ix, newApi, sources, disk, extract);
    NothingToForget(built, Listed(sources));
    NothingRead(built, sources, disk, extract);
  }

  lemma {:induction false} NothingRead(ix: Index, sources: seq<Source>, disk: map<FileName, Stamp>, extract: Extraction)
    requires forall s :: s in sources ==> !ReadAgain(ix.files, s, disk, extract)
    ensures AllIndexed(ix, sources, disk, extract) == ix
  {
    if sources != [] {
      var front, s := sources[..|sources| - 1], sources[|sources| - 1];
      assert sources == front + [s];
      NothingRead(ix, front, disk, extract);
      assert s in sources && !ReadAgain(ix.files, s, disk, extract);
    }
  }

  // ---------------------------------------------------------------- the index object

  class Store {
    var items: seq<Item>
    var files: map<FileName, Stamp>

    constructor ()
      ensures View() == Index([], map[])
    {
      items, files := [], map[];
    }

    ghost function View(): Index
      reads this
    {
      Index(items, files)
    }

    /** Drop the rows `keep` does not want and the stamps of the files in `gone`. */
    method Forget(keep: Item -> bool, gone: set<FileName>)
      modifies this
      ensures View() == Index(Filter(old(items), keep), map f | f in old(files) && f !in gone :: old(files)[f])
    {
      var kept := [];
      for i := 0 to |items|
        invariant items == old(items) && files == old(files) && kept == Filter(items[..i], keep)
      {
        assert items[..i + 1] == items[..i] + [items[i]];
        FilterConcat(items[..i], [items[i]], keep);
        if keep(items[i]) { kept := kept + [items[i]]; }
      }
      assert items[..|items|] == items;
      items := kept;
      files := map f | f in files && f !in gone :: files[f];
    }

    /** (Re)index each listed file that changed. */
    method IndexFiles(sources: seq<Source>, disk: map<FileName, Stamp>, extract: Extraction) returns (n: nat)
      modifies this
      ensures View() == AllIndexed(old(View()), sources, disk, extract)
      ensures n == |Filter(sources, (s: Source) => ReadAgain(old(files), s, disk, extract))|
    {
      var known := files;
      n := 0;
      for i := 0 to |sources|
        invariant View() == AllIndexed(old(View()), sources[..i], disk, extract)
        invariant n == |Filter(sources[..i], (s: Source) => ReadAgain(known, s, disk, extract))|
      {
        var s := sources[i];
        assert sources[..i + 1] == sources[..i] + [s] && sources[..i + 1][..i] == sources[..i];
        FilterConcat(sources[..i], [s], (x: Source) => ReadAgain(known, x, disk, extract));
        if s.file in disk && !(s.file in known && known[s.file] == disk[s.file]) {
          var rows := extract(s.file, s.role, disk[s.file]);
          if rows.Some? {
            items := Filter(items, NotAtFile(s.file)) + rows.value;
            files := files[s.file := disk[s.file]];
            n := n + 1;
          }
        }
      }
      assert sources[..|sources|] == sources;
    }

    method BuildIndex(newApi: bool, sources: seq<Source>, disk: map<FileName, Stamp>, extract: Extraction) returns (n: nat)
      modifies this
      ensures View() == Built(old(View()), newApi, sources, disk, extract)
    {
      if newApi {
        Forget(NotApi(), ApiFiles(items));
      }
      var listed := set s | s in sources && !s.role.Log? && !s.role.NoteFile? :: s.file;
      Forget(StillListed(listed), StaleFiles(items, listed));
      n := IndexFiles(sources, disk, extract);
    }

    method IndexDocuments(files: seq<FileName>, ocr: string, disk: map<FileName, Stamp>, extract: Extraction) returns (n: nat)
      modifies this
      ensures View() == AfterCall(old(View()), Notes(NoteSources(files, ocr), disk, extract))
    {
      n := IndexFiles(NoteSources(files, ocr), disk, extract);
    }
  }

  function NoteSources(files: seq<FileName>, ocr: string): seq<Source> {
    seq(|files|, i requires 0 <= i < |files| => Source(files[i], NoteFile(ocr)))
  }
}
