/** The table of indexed items that the log indexers share (eco/logs_ask.py `items`), in row order. */
module IndexTable {
  import opened Collections

  type Id = string

  /** Where an item comes from. The path of a post indexed by the older per-pgroup fetch names no
      logbook. */
  datatype Path = File(name: string) | Scilog(logbook: Option<Id>, post: Id) | Elog(book: Id, entry: nat)

  datatype Kind = Command | Doc | Api | Example | Note | NoteCommand | ScilogPost | ElogEntry

  datatype Item = Item(text: string, context: string, kind: Kind, t: real, path: Path)

  /** A post's row, or the row of a command line in a post. */
  predicate IsScilog(it: Item) {
    (it.kind == ScilogPost || it.kind == NoteCommand) && it.path.Scilog?
  }

  function OfPost(id: Id): Item -> bool { it => IsScilog(it) && it.path.post == id }

  /** The rows of a post, whatever logbook they are filed under. */
  function PostRows(items: seq<Item>, id: Id): seq<Item> { Filter(items, OfPost(id)) }

  function NotOfPosts(ids: set<Id>): Item -> bool { it => !(IsScilog(it) && it.path.post in ids) }

  function NotOfOtherLogbooks(keep: set<Id>): Item -> bool {
    it => IsScilog(it) ==> it.path.logbook.Some? && it.path.logbook.value in keep
  }

  function NotScilog(): Item -> bool { it => !IsScilog(it) }

  /** Everything in the table that is not from SciLog. */
  function OtherRows(items: seq<Item>): seq<Item> { Filter(items, NotScilog()) }

  lemma {:induction false} PostRowsAfterForgetting(items: seq<Item>, ids: set<Id>, id: Id)
    ensures PostRows(Filter(items, NotOfPosts(ids)), id) == if id in ids then [] else PostRows(items, id)
  {
    if id in ids {
      FilterTwice(items, NotOfPosts(ids), OfPost(id), (it: Item) => false);
      FilterNone(items, (it: Item) => false);
    } else {
      FilterTwice(items, NotOfPosts(ids), OfPost(id), OfPost(id));
    }
  }

  lemma {:induction false} OtherRowsAfterForgetting(items: seq<Item>, keep: Item -> bool)
    requires forall it :: it in items && !IsScilog(it) ==> keep(it)
    ensures OtherRows(Filter(items, keep)) == OtherRows(items)
  {
    FilterTwice(items, keep, NotScilog(), NotScilog());
  }
}
