/**
 Incremental indexing of SciLog logbooks (eco/logs_scilog.py): each update reads the posts that are
 new since a logbook's watermark, replaces what is indexed of them and moves the watermark.

 The server's posts are one sequence in the order of their creation, `server`; what a read at
 instant n sees is the first n of them. Deleted posts and posts without a readable date are not
 part of it.
 */
module SciLog {
  import opened Collections
  import opened IndexTable

  type Logbook = string

  /** A post and the command lines in its text. */
  datatype Post = Post(id: Id, logbook: Logbook, t: real, text: string, commands: seq<string>)

  /** The index: its rows, and per logbook the time up to which it was read. */
  datatype Index = Index(items: seq<Item>, last: map<Logbook, real>)

  const PAGE := 500

  ghost predicate Chronological(server: seq<Post>) {
    && (forall i, j :: 0 <= i < j < |server| ==> server[i].t < server[j].t)
    && (forall i, j :: 0 <= i < j < |server| ==> server[i].id != server[j].id)
  }

  // ---------------------------------------------------------------- reading

  /** The posts of some logbooks created after `after` (None: all), oldest first. */
  function Matching(posts: seq<Post>, logbooks: set<Logbook>, after: Option<real>): seq<Post> {
    if posts == [] then []
    else
      Matching(posts[..|posts| - 1], logbooks, after)
      + (if Matches(posts[|posts| - 1], logbooks, after) then [posts[|posts| - 1]] else [])
  }

  predicate Matches(p: Post, logbooks: set<Logbook>, after: Option<real>) {
    p.logbook in logbooks && (after.Some? ==> p.t > after.value)
  }

  lemma {:induction false} MatchingMember(posts: seq<Post>, logbooks: set<Logbook>, after: Option<real>, p: Post)
    ensures p in Matching(posts, logbooks, after) <==> p in posts && Matches(p, logbooks, after)
  {
    if posts != [] {
      MatchingMember(posts[..|posts| - 1], logbooks, after, p);
      assert posts == posts[..|posts| - 1] + [posts[|posts| - 1]];
    }
  }

  /** A row as the server sends it: a post, or something that is not indexed. */
  type Raw = Option<Post>

  function Live(rows: seq<Raw>): seq<Post> {
    if rows == [] then [] else Live(rows[..|rows| - 1]) + if rows[|rows| - 1].Some? then [rows[|rows| - 1].value] else []
  }

  function Take<T>(s: seq<T>, n: nat): seq<T> { if |s| <= n then s else s[..n] }

  lemma {:induction false} LiveConcat(a: seq<Raw>, b: seq<Raw>)
    ensures Live(a + b) == Live(a) + Live(b)
  {
    if b == [] {
      assert a + b == a;
    } else {
      assert (a + b)[..|a + b| - 1] == a + b[..|b| - 1];
      LiveConcat(a, b[..|b| - 1]);
    }
  }

  /** Read the rows of a query page by page. */
  method Paragraphs(rows: seq<Raw>, limit: nat) returns (out: seq<Post>)
    ensures out == Take(Live(rows), limit)
  {
    out := [];
    var skip := 0;
    while |out| < limit
      invariant 0 <= skip <= |rows| && out == Live(rows[..skip])
      decreases |rows| - skip, limit - |out|
    {
      var page := rows[skip..Min(skip + PAGE, |rows|)];
      NextPage(rows, skip, |page|);
      out := out + Live(page);
      skip := skip + |page|;
      if |page| < PAGE { break; }
    }
    EnoughRead(rows, skip, limit);
    if |out| > limit { out := out[..limit]; }
  }

  lemma {:induction false} EnoughRead(rows: seq<Raw>, skip: nat, limit: nat)
    requires skip <= |rows| && (skip == |rows| || |Live(rows[..skip])| >= limit)
    ensures Take(Live(rows[..skip]), limit) == Take(Live(rows), limit)
  {
    NextPage(rows, skip, |rows| - skip);
    TakeAll(rows);
  }

  lemma NextPage(rows: seq<Raw>, skip: nat, n: nat)
    requires skip + n <= |rows|
    ensures Live(rows[..skip + n]) == Live(rows[..skip]) + Live(rows[skip..skip + n])
    ensures n == 0 ==> rows[..skip + n] == rows[..skip]
  {
    LiveConcat(rows[..skip], rows[skip..skip + n]);
    assert rows[..skip] + rows[skip..skip + n] == rows[..skip + n];
  }

  function Min(a: nat, b: nat): nat { if a <= b then a else b }

  lemma {:induction false} MatchingChronological(posts: seq<Post>, logbooks: set<Logbook>, after: Option<real>)
    requires Chronological(posts)
    ensures Chronological(Matching(posts, logbooks, after))
  {
    if posts != [] {
      var front, last := posts[..|posts| - 1], posts[|posts| - 1];
      MatchingChronological(front, logbooks, after);
      forall p | p in Matching(front, logbooks, after) ensures p.t < last.t && p.id != last.id {
        MatchingMember(front, logbooks, after, p);
      }
    }
  }

  // ---------------------------------------------------------------- writing

  /** The rows a post is indexed as: its text and each command line in it. */
  function RowsOf(p: Post): seq<Item> {
    [Item(p.text, "", ScilogPost, p.t, PathOf(p))]
    + seq(|p.commands|, i requires 0 <= i < |p.commands| => Item(p.commands[i], p.text, NoteCommand, p.t, PathOf(p)))
  }

  function PathOf(p: Post): Path { Scilog(Some(p.logbook), p.id) }

  function AllRows(posts: seq<Post>): seq<Item> {
    if posts == [] then [] else AllRows(posts[..|posts| - 1]) + RowsOf(posts[|posts| - 1])
  }

  lemma {:induction false} RowsOfOneMore(posts: seq<Post>, i: nat)
    requires i < |posts|
    ensures AllRows(posts[..i + 1]) == AllRows(posts[..i]) + RowsOf(posts[i])
  {
    assert posts[..i + 1][..i] == posts[..i];
  }

  function Ids(posts: seq<Post>): set<Id> { set p | p in posts :: p.id }

  /** One logbook's posts written over what is indexed of them. */
  function Inserted(items: seq<Item>, posts: seq<Post>): seq<Item> {
    Filter(items, NotOfPosts(Ids(posts))) + AllRows(posts)
  }

  /** All logbooks' posts, one logbook after the other. */
  function Written(items: seq<Item>, chosen: seq<Logbook>, posts: map<Logbook, seq<Post>>): seq<Item>
    requires forall lb :: lb in chosen ==> lb in posts
  {
    if chosen == [] then items
    else Inserted(Written(items, chosen[..|chosen| - 1], posts), posts[chosen[|chosen| - 1]])
  }

  lemma RowsOfAPost(p: Post, id: Id)
    ensures PostRows(RowsOf(p), id) == if p.id == id then RowsOf(p) else []
    ensures forall it :: it in RowsOf(p) ==> IsScilog(it) && it.path == PathOf(p)
  {
    if p.id == id { FilterAll(RowsOf(p), OfPost(id)); } else { FilterNone(RowsOf(p), OfPost(id)); }
  }

  lemma {:induction false} RowsOfNoPost(posts: seq<Post>, id: Id)
    requires id !in Ids(posts)
    ensures PostRows(AllRows(posts), id) == []
  {
    if posts != [] {
      var front, last := posts[..|posts| - 1], posts[|posts| - 1];
      assert last in posts;
      assert forall p :: p in front ==> p in posts;
      RowsOfNoPost(front, id);
      RowsOfAPost(last, id);
      FilterConcat(AllRows(front), RowsOf(last), OfPost(id));
    }
  }

  lemma {:induction false} RowsOfOnePost(posts: seq<Post>, k: nat)
    requires k < |posts| && EachIdOnce(posts)
    ensures PostRows(AllRows(posts), posts[k].id) == RowsOf(posts[k])
  {
    var n := |posts| - 1;
    var front, last, id := posts[..n], posts[n], posts[k].id;
    assert EachIdOnce(front);
    FilterConcat(AllRows(front), RowsOf(last), OfPost(id));
    RowsOfAPost(last, id);
    if k < n {
      RowsOfOnePost(front, k);
    } else {
      RowsOfNoPost(front, id);
    }
  }

  ghost predicate EachIdOnce(posts: seq<Post>) { forall i, j :: 0 <= i < j < |posts| ==> posts[i].id != posts[j].id }

  /** After a logbook's posts were written each of them has exactly its own rows, and every other post
      has the rows it had. */
  lemma InsertedRows(items: seq<Item>, posts: seq<Post>, id: Id)
    requires EachIdOnce(posts)
    ensures id !in Ids(posts) ==> PostRows(Inserted(items, posts), id) == PostRows(items, id)
    ensures forall p :: p in posts && p.id == id ==> PostRows(Inserted(items, posts), id) == RowsOf(p)
  {
    FilterConcat(Filter(items, NotOfPosts(Ids(posts))), AllRows(posts), OfPost(id));
    PostRowsAfterForgetting(items, Ids(posts), id);
    if id !in Ids(posts) { RowsOfNoPost(posts, id); }
    forall p | p in posts && p.id == id ensures PostRows(Inserted(items, posts), id) == RowsOf(p) {
      var k :| 0 <= k < |posts| && posts[k] == p;
      RowsOfOnePost(posts, k);
    }
  }

  /** No two of the logbooks' lists have different posts under one id, and none has one twice. */
  ghost predicate UniquePosts(chosen: seq<Logbook>, posts: map<Logbook, seq<Post>>)
    requires forall lb :: lb in chosen ==> lb in posts
  {
    && (forall lb :: lb in chosen ==> EachIdOnce(posts[lb]))
    && (forall a, b, p, q :: a in chosen && b in chosen && p in posts[a] && q in posts[b] && p.id == q.id ==> p == q)
  }

  lemma {:induction false} WrittenRows(items: seq<Item>, chosen: seq<Logbook>, posts: map<Logbook, seq<Post>>, id: Id)
    requires (forall lb :: lb in chosen ==> lb in posts) && UniquePosts(chosen, posts)
    ensures (forall lb :: lb in chosen ==> id !in Ids(posts[lb])) ==> PostRows(Written(items, chosen, posts), id) == PostRows(items, id)
    ensures forall lb, p :: lb in chosen && p in posts[lb] && p.id == id ==> PostRows(Written(items, chosen, posts), id) == RowsOf(p)
  {
    if chosen != [] {
      var front, last := chosen[..|chosen| - 1], chosen[|chosen| - 1];
      assert last in chosen && forall lb :: lb in front ==> lb in chosen;
      assert UniquePosts(front, posts);
      WrittenRows(items, front, posts, id);
      InsertedRows(Written(items, front, posts), posts[last], id);
      forall lb, p | lb in chosen && p in posts[lb] && p.id == id
        ensures PostRows(Written(items, chosen, posts), id) == RowsOf(p)
      {
        if id in Ids(posts[last]) { SamePost(chosen, posts, lb, last, p); } else { assert lb in front; }
      }
    }
  }

  lemma SamePost(chosen: seq<Logbook>, posts: map<Logbook, seq<Post>>, a: Logbook, b: Logbook, p: Post)
    requires (forall lb :: lb in chosen ==> lb in posts) && UniquePosts(chosen, posts)
    requires a in chosen && b in chosen && p in posts[a] && p.id in Ids(posts[b])
    ensures p in posts[b]
  {
    var q :| q in posts[b] && q.id == p.id;
  }

  lemma {:induction false} WrittenMember(items: seq<Item>, chosen: seq<Logbook>, posts: map<Logbook, seq<Post>>, it: Item)
    requires forall lb :: lb in chosen ==> lb in posts
    requires it in Written(items, chosen, posts)
    ensures it in items || exists lb, p :: lb in chosen && p in posts[lb] && it in RowsOf(p)
  {
    if chosen != [] {
      var front, last := chosen[..|chosen| - 1], chosen[|chosen| - 1];
      assert last in chosen && forall lb :: lb in front ==> lb in chosen;
      var before := Written(items, front, posts);
      FilterMember(before, NotOfPosts(Ids(posts[last])), it);
      if it in AllRows(posts[last]) {
        AllRowsMember(posts[last], it);
      } else {
        WrittenMember(items, front, posts, it);
      }
    }
  }

  lemma {:induction false} AllRowsMember(posts: seq<Post>, it: Item)
    requires it in AllRows(posts)
    ensures exists p :: p in posts && it in RowsOf(p)
  {
    var front, last := posts[..|posts| - 1], posts[|posts| - 1];
    if it in RowsOf(last) {
      assert last in posts;
    } else {
      AllRowsMember(front, it);
      var p :| p in front && it in RowsOf(p);
      assert p in posts;
    }
  }

  /** Rows that are not from SciLog stay as they are. */
  lemma {:induction false} WrittenKeepsOthers(items: seq<Item>, chosen: seq<Logbook>, posts: map<Logbook, seq<Post>>)
    requires forall lb :: lb in chosen ==> lb in posts
    ensures OtherRows(Written(items, chosen, posts)) == OtherRows(items)
  {
    if chosen != [] {
      var front, last := chosen[..|chosen| - 1], chosen[|chosen| - 1];
      assert forall lb :: lb in front ==> lb in chosen;
      WrittenKeepsOthers(items, front, posts);
      var before := Written(items, front, posts);
      OtherRowsAfterForgetting(before, NotOfPosts(Ids(posts[last])));
      FilterConcat(Filter(before, NotOfPosts(Ids(posts[last]))), AllRows(posts[last]), NotScilog());
      AllRowsAreScilog(posts[last]);
      FilterNone(AllRows(posts[last]), NotScilog());
    }
  }

  lemma {:induction false} AllRowsAreScilog(posts: seq<Post>)
    ensures forall it :: it in AllRows(posts) ==> IsScilog(it)
  {
    forall it | it in AllRows(posts) ensures IsScilog(it) {
      AllRowsMember(posts, it);
      var p :| p in posts && it in RowsOf(p);
      RowsOfAPost(p, p.id);
    }
  }

  // ---------------------------------------------------------------- one update

  /** The index without the logbooks that can no longer be read, and without posts filed under none. */
  function Kept(ix: Index, readable: set<Logbook>): Index {
    Index(Filter(ix.items, NotOfOtherLogbooks(readable)), map lb | lb in ix.last && lb in readable :: ix.last[lb])
  }

  /** A logbook's posts an update fetches when it sees `view`: all of a logbook seen for the first
      time, else those after its watermark. */
  function NewPosts(last: map<Logbook, real>, view: seq<Post>, lb: Logbook): seq<Post> {
    Matching(view, {lb}, if lb in last then Some(last[lb]) else None)
  }

  function Fetched(last: map<Logbook, real>, chosen: seq<Logbook>, views: map<Logbook, seq<Post>>): (r: map<Logbook, seq<Post>>)
    requires forall lb :: lb in chosen ==> lb in views
    ensures forall lb :: lb in r <==> lb in chosen
  {
    map lb | lb in chosen :: NewPosts(last, views[lb], lb)
  }

  function Later(a: Option<real>, b: Option<real>): Option<real> {
    if a.None? || (b.Some? && b.value > a.value) then b else a
  }

  /** The last of some posts. */
  function LastTime(posts: seq<Post>): Option<real> {
    if posts == [] then None else Later(LastTime(posts[..|posts| - 1]), Some(posts[|posts| - 1].t))
  }

  /** The newest time an update has seen: of the posts it fetched and of the watermarks it went by. */
  function NewestSeen(last: map<Logbook, real>, chosen: seq<Logbook>, posts: map<Logbook, seq<Post>>): Option<real>
    requires forall lb :: lb in chosen ==> lb in posts
  {
    if chosen == [] then None
    else
      var lb := chosen[|chosen| - 1];
      Later(Later(NewestSeen(last, chosen[..|chosen| - 1], posts), LastTime(posts[lb])),
            if lb in last then Some(last[lb]) else None)
  }

  function WithWatermark(last: map<Logbook, real>, chosen: seq<Logbook>, t: Option<real>): map<Logbook, real> {
    if t.None? then last else map lb | lb in last.Keys + (set lb | lb in chosen) :: if lb in chosen then t.value else last[lb]
  }

  /** What an update writes, given the index without unreadable logbooks. */
  function Added(ix: Index, chosen: seq<Logbook>, posts: map<Logbook, seq<Post>>): Index
    requires forall lb :: lb in chosen ==> lb in posts
  {
    Index(Written(ix.items, chosen, posts), WithWatermark(ix.last, chosen, NewestSeen(ix.last, chosen, posts)))
  }

  /** An update of the chosen logbooks, each read as `views` says. */
  function Updated(ix: Index, chosen: seq<Logbook>, readable: set<Logbook>, views: map<Logbook, seq<Post>>): Index
    requires forall lb :: lb in chosen ==> lb in views
  {
    var kept := Kept(ix, readable);
    Added(kept, chosen, Fetched(kept.last, chosen, views))
  }

  // ---------------------------------------------------------------- the index object

  class Store {
    var items: seq<Item>
    var last: map<Logbook, real>

    constructor (items: seq<Item>)
      ensures View() == Index(items, map[])
    {
      this.items, last := items, map[];
    }

    ghost function View(): Index
      reads this
    {
      Index(items, last)
    }

    /** Drop the posts of logbooks not in `readable` and forget where their fetch stood. */
    method ForgetUnreadable(readable: set<Logbook>) returns (dropped: nat)
      modifies this
      ensures View() == Kept(old(View()), readable)
      ensures dropped == |Filter(old(items), (it: Item) => it.kind == ScilogPost && !NotOfOtherLogbooks(readable)(it))|
    {
      var kept := [];
      dropped := 0;
      for i := 0 to |items|
        invariant items == old(items) && last == old(last)
        invariant kept == Filter(items[..i], NotOfOtherLogbooks(readable))
        invariant dropped == |Filter(items[..i], (it: Item) => it.kind == ScilogPost && !NotOfOtherLogbooks(readable)(it))|
      {
        var it := items[i];
        assert items[..i + 1] == items[..i] + [it];
        FilterConcat(items[..i], [it], NotOfOtherLogbooks(readable));
        FilterConcat(items[..i], [it], (it: Item) => it.kind == ScilogPost && !NotOfOtherLogbooks(readable)(it));
        if NotOfOtherLogbooks(readable)(it) {
          kept := kept + [it];
        } else if it.kind == ScilogPost {
          dropped := dropped + 1;
        }
      }
      assert items[..|items|] == items;
      items := kept;
      last := map lb | lb in last && lb in readable :: last[lb];
    }

    /** Drop already indexed copies of these posts. */
    method ForgetPosts(ids: set<Id>)
      modifies this`items
      ensures items == Filter(old(items), NotOfPosts(ids))
    {
      var kept := [];
      for i := 0 to |items|
        invariant items == old(items)
        invariant kept == Filter(items[..i], NotOfPosts(ids))
      {
        assert items[..i + 1] == items[..i] + [items[i]];
        FilterConcat(items[..i], [items[i]], NotOfPosts(ids));
        if NotOfPosts(ids)(items[i]) { kept := kept + [items[i]]; }
      }
      assert items[..|items|] == items;
      items := kept;
    }

    /** Write one logbook's posts. */
    method WritePosts(posts: seq<Post>)
      modifies this`items
      ensures items == Inserted(old(items), posts)
    {
      if posts == [] {
        FilterAll(items, NotOfPosts(Ids(posts)));
        return;
      }
      ForgetPosts(Ids(posts));
      AppendPosts(posts);
    }

    method AppendPosts(posts: seq<Post>)
      modifies this`items
      ensures items == old(items) + AllRows(posts)
    {
      for i := 0 to |posts|
        invariant items == old(items) + AllRows(posts[..i])
      {
        RowsOfOneMore(posts, i);
        Associative(old(items), AllRows(posts[..i]), RowsOf(posts[i]));
        items := items + RowsOf(posts[i]);
      }
      TakeAll(posts);
    }

    /** Write every chosen logbook's posts. */
    method WriteAll(chosen: seq<Logbook>, posts: map<Logbook, seq<Post>>)
      requires forall lb :: lb in chosen ==> lb in posts
      modifies this`items
      ensures items == Written(old(items), chosen, posts)
    {
      for i := 0 to |chosen|
        invariant items == Written(old(items), chosen[..i], posts)
      {
        assert chosen[..i + 1][..i] == chosen[..i];
        WritePosts(posts[chosen[i]]);
      }
      assert chosen[..|chosen|] == chosen;
    }

    /** Add the posts of `chosen` that are new since the last fetch. Logbooks seen for the first time
        are read one by one (`views`), all others in one request that sees `seenView`. */
    method IndexLogbooks(chosen: seq<Logbook>, readable: set<Logbook>, views: map<Logbook, seq<Post>>, seenView: seq<Post>)
      requires forall lb :: lb in chosen ==> lb in views
      requires forall lb :: lb in chosen && lb in Kept(View(), readable).last ==> views[lb] == seenView
      modifies this
      ensures View() == Updated(old(View()), chosen, readable, views)
    {
      var dropped := ForgetUnreadable(readable);
      var posts := CollectPosts(last, chosen, views, seenView);
      var newest := FindNewest(last, chosen, posts);
      WriteAll(chosen, posts);
      if newest.Some? {
        last := WithWatermark(last, chosen, newest);
      }
    }
  }

  method FindNewest(last: map<Logbook, real>, chosen: seq<Logbook>, posts: map<Logbook, seq<Post>>) returns (newest: Option<real>)
    requires forall lb :: lb in chosen ==> lb in posts
    ensures newest == NewestSeen(last, chosen, posts)
  {
    newest := None;
    for i := 0 to |chosen|
      invariant newest == NewestSeen(last, chosen[..i], posts)
    {
      assert chosen[..i + 1][..i] == chosen[..i];
      newest := Later(newest, LastTime(posts[chosen[i]]));
      newest := Later(newest, if chosen[i] in last then Some(last[chosen[i]]) else None);
    }
    assert chosen[..|chosen|] == chosen;
  }

  /** A time no later than any of the watermarks, the earliest of them. */
  method Oldest(last: map<Logbook, real>, seen: set<Logbook>) returns (least: real)
    requires seen != {} && seen <= last.Keys
    ensures forall lb :: lb in seen ==> least <= last[lb]
    ensures exists lb :: lb in seen && last[lb] == least
  {
    var oldest :| oldest in seen;
    var rest := seen;
    least := last[oldest];
    while rest != {}
      invariant rest <= seen
      invariant forall lb :: lb in seen && lb !in rest ==> least <= last[lb]
      invariant exists lb :: lb in seen && last[lb] == least
      decreases rest
    {
      var lb :| lb in rest;
      if last[lb] < least { least := last[lb]; }
      rest := rest - {lb};
    }
  }

  /** The posts of each chosen logbook: its own read, or its share of the common one. */
  method CollectPosts(last: map<Logbook, real>, chosen: seq<Logbook>, views: map<Logbook, seq<Post>>, seenView: seq<Post>)
      returns (posts: map<Logbook, seq<Post>>)
    requires forall lb :: lb in chosen ==> lb in views
    requires forall lb :: lb in chosen && lb in last ==> views[lb] == seenView
    ensures posts == Fetched(last, chosen, views)
  {
    var seen := set lb | lb in chosen && lb in last;
    var common := [];
    if seen != {} {
      var least := Oldest(last, seen);
      common := Matching(seenView, seen, Some(least));
      forall lb | lb in seen ensures Share(common, lb, last[lb]) == NewPosts(last, seenView, lb) {
        ShareOfCommonRead(seenView, seen, least, lb, last[lb]);
      }
    }
    posts := map lb | lb in chosen :: if lb in last then Share(common, lb, last[lb]) else Matching(views[lb], {lb}, None);
    forall lb | lb in chosen ensures posts[lb] == NewPosts(last, views[lb], lb) {
      assert lb in last ==> lb in seen;
    }
    assert posts == Fetched(last, chosen, views);
  }

  /** One logbook's posts out of the common read. */
  function Share(common: seq<Post>, lb: Logbook, known: real): seq<Post> {
    if common == [] then []
    else
      var p := common[|common| - 1];
      Share(common[..|common| - 1], lb, known) + if p.logbook == lb && p.t > known then [p] else []
  }

  /** Reading all known logbooks together from the oldest watermark on misses nothing of any of them. */
  lemma {:induction false} ShareOfCommonRead(view: seq<Post>, seen: set<Logbook>, least: real, lb: Logbook, known: real)
    requires lb in seen && least <= known
    ensures Share(Matching(view, seen, Some(least)), lb, known) == Matching(view, {lb}, Some(known))
  {
    if view != [] {
      var front, last := view[..|view| - 1], view[|view| - 1];
      ShareOfCommonRead(front, seen, least, lb, known);
      var before, common := Matching(front, seen, Some(least)), Matching(view, seen, Some(least));
      if Matches(last, seen, Some(least)) {
        assert common == before + [last] && common[..|common| - 1] == before;
      } else {
        assert common == before && !Matches(last, {lb}, Some(known));
        assert Matching(view, {lb}, Some(known)) == Matching(front, {lb}, Some(known));
      }
    }
  }
}
