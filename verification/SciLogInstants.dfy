/**
 The SciLog index over any sequence of updates that read each logbook at its own instant
 (eco/logs_scilog.py): when it stays complete, and that it does not become complete again.
 */
module SciLogInstants {
  import opened Collections
  import opened IndexTable
  import opened SciLog
  import opened SciLogSync

  ghost predicate NoLatecomer(chosen: seq<Logbook>, views: map<Logbook, seq<Post>>, server: seq<Post>)
    requires forall lb :: lb in chosen ==> lb in views
  {
    forall p :: p in server ==> !Latecomer(chosen, views, p)
  }

  // ---------------------------------------------------------------- one update

  /** A post that is not due after the update has no rows. */
  lemma NotDueNoRows(ix: Index, before: seq<Post>, server: seq<Post>, chosen: seq<Logbook>, views: map<Logbook, seq<Post>>, p: Post)
    requires Synchronised(ix, before) && before <= server && Chronological(server) && p in server
    requires OwnInstants(chosen, views, before, server)
    ensures var ix' := Added(ix, chosen, Fetched(ix.last, chosen, views));
            !Due(ix', p) ==> PostRows(ix'.items, p.id) == []
  {
    var posts: map<Logbook, seq<Post>> := Fetched(ix.last, chosen, views);
    FetchedUnique(ix.last, chosen, views, server);
    if p.logbook in chosen { FetchedMember(ix.last, chosen, views, p.logbook, p); }
    if p.logbook in chosen && p in posts[p.logbook] {
      FetchedPostOk(ix, chosen, posts, p.logbook, p);
    } else {
      NotFetchedById(ix.last, chosen, views, server, p);
      OldRowsOfPost(ix, before, server, p);
      NotWrittenNoRows(ix, chosen, posts, p);
    }
  }

  lemma NotWrittenNoRows(ix: Index, chosen: seq<Logbook>, posts: map<Logbook, seq<Post>>, p: Post)
    requires (forall l :: l in chosen ==> l in posts) && UniquePosts(chosen, posts)
    requires PostOk(ix, p) && forall lb :: lb in chosen ==> p.id !in Ids(posts[lb])
    ensures !Due(Added(ix, chosen, posts), p) ==> PostRows(Added(ix, chosen, posts).items, p.id) == []
  {
    WrittenRows(ix.items, chosen, posts, p.id);
    NewestSeenBounds(ix.last, chosen, posts);
  }

  /** An update that reads each logbook at its own instant keeps the index synchronised if no post comes
      late, with the server at any later instant. */
  lemma ReadsSynchronise(ix: Index, before: seq<Post>, seen: seq<Post>, chosen: seq<Logbook>, views: map<Logbook, seq<Post>>)
    requires Synchronised(ix, before) && before <= seen && Chronological(seen)
    requires OwnInstants(chosen, views, before, seen) && NoLatecomer(chosen, views, seen)
    ensures Synchronised(Added(ix, chosen, Fetched(ix.last, chosen, views)), seen)
  {
    var ix' := Added(ix, chosen, Fetched(ix.last, chosen, views));
    forall p | p in seen ensures PostOk(ix', p) {
      PostAfterReads(ix, before, seen, chosen, views, p);
      NotDueNoRows(ix, before, seen, chosen, views, p);
    }
    forall it | it in ix'.items ensures RowOk(ix', seen, it) {
      AddedRowOk(ix, before, seen, chosen, views, it);
    }
    forall lb | lb in ix'.last ensures WatermarkOk(ix', seen, lb) {
      AddedWatermarkOk(ix, before, seen, chosen, views, lb);
    }
  }

  /** A chosen logbook is due as far as it was read. */
  lemma ReadPostsAreDue(ix: Index, chosen: seq<Logbook>, views: map<Logbook, seq<Post>>, p: Post)
    requires (forall lb :: lb in chosen ==> lb in views) && p.logbook in chosen && p in views[p.logbook]
    ensures Due(Added(ix, chosen, Fetched(ix.last, chosen, views)), p)
  {
    var posts: map<Logbook, seq<Post>> := Fetched(ix.last, chosen, views);
    FetchedMember(ix.last, chosen, views, p.logbook, p);
    NewestSeenBounds(ix.last, chosen, posts);
    assert NotAfter(posts[p.logbook], NewestSeen(ix.last, chosen, posts));
  }

  // ---------------------------------------------------------------- any sequence of updates

  /** One update: the logbooks chosen, those readable, how many posts the server had when each chosen
      logbook was read, and when the update was over. */
  datatype Reading = Reading(chosen: seq<Logbook>, readable: set<Logbook>, instants: map<Logbook, nat>, posts: nat)

  ghost predicate Fits(u: Reading, start: nat, server: seq<Post>) {
    && start <= u.posts <= |server|
    && forall lb :: lb in u.chosen ==> lb in u.readable && lb in u.instants && start <= u.instants[lb] <= u.posts
  }

  /** How many posts the server had after some updates. */
  function PostsAfter(updates: seq<Reading>): nat { if updates == [] then 0 else updates[|updates| - 1].posts }

  /** Updates one after the other, on a server that only grows. */
  ghost predicate InOrder(updates: seq<Reading>, server: seq<Post>) {
    updates == [] ||
    var front := updates[..|updates| - 1];
    InOrder(front, server) && Fits(updates[|updates| - 1], PostsAfter(front), server)
  }

  ghost function ViewsOf(u: Reading, server: seq<Post>): map<Logbook, seq<Post>>
    requires forall lb :: lb in u.chosen ==> lb in u.instants && u.instants[lb] <= |server|
  {
    map lb | lb in u.chosen :: server[..u.instants[lb]]
  }

  ghost function After(start: Index, updates: seq<Reading>, server: seq<Post>): Index
    requires InOrder(updates, server)
  {
    if updates == [] then start
    else
      var u := updates[|updates| - 1];
      Updated(After(start, updates[..|updates| - 1], server), u.chosen, u.readable, ViewsOf(u, server))
  }

  ghost predicate NoneLate(updates: seq<Reading>, server: seq<Post>)
    requires InOrder(updates, server)
  {
    updates == [] ||
    var u := updates[|updates| - 1];
    NoneLate(updates[..|updates| - 1], server) && NoLatecomer(u.chosen, ViewsOf(u, server), server)
  }

  /** A post comes late only while the update is under way. */
  lemma LateIsSeen(u: Reading, start: nat, server: seq<Post>, p: Post)
    requires Fits(u, start, server) && Chronological(server) && p in server
    requires Latecomer(u.chosen, ViewsOf(u, server), p)
    ensures p in server[..u.posts]
  {
    var lb, q :| lb in u.chosen && q in ViewsOf(u, server)[lb] && q.logbook == lb && p.t <= q.t;
    var i :| 0 <= i < |server| && server[i] == p;
    var j :| 0 <= j < u.instants[lb] && server[j] == q;
    assert i <= j;
    assert server[..u.posts][i] == p;
  }

  lemma InstantsOwn(u: Reading, start: nat, server: seq<Post>)
    requires Fits(u, start, server)
    ensures OwnInstants(u.chosen, ViewsOf(u, server), server[..start], server[..u.posts])
    ensures server[..start] <= server[..u.posts]
  {
  }

  lemma UpdateStaysSynchronised(ix: Index, u: Reading, start: nat, server: seq<Post>)
    requires Fits(u, start, server) && Chronological(server) && Synchronised(ix, server[..start])
    requires NoLatecomer(u.chosen, ViewsOf(u, server), server)
    ensures Synchronised(Updated(ix, u.chosen, u.readable, ViewsOf(u, server)), server[..u.posts])
  {
    ChronologicalPrefix(server, start);
    ChronologicalPrefix(server, u.posts);
    InstantsOwn(u, start, server);
    KeptSynchronised(ix, server[..start], u.readable);
    assert forall p :: p in server[..u.posts] ==> p in server;
    ReadsSynchronise(Kept(ix, u.readable), server[..start], server[..u.posts], u.chosen, ViewsOf(u, server));
  }

  /** Over any updates in which no post comes late, whatever the choices and whatever is readable, the
      index stays synchronised: every post up to its logbook's watermark has exactly its own rows. */
  lemma {:induction false} StaysSynchronised(start: Index, updates: seq<Reading>, server: seq<Post>)
    requires InOrder(updates, server) && Chronological(server) && NoneLate(updates, server)
    requires Synchronised(start, [])
    ensures Synchronised(After(start, updates, server), server[..PostsAfter(updates)])
  {
    if updates == [] {
      assert server[..0] == [];
    } else {
      var front, u := updates[..|updates| - 1], updates[|updates| - 1];
      StaysSynchronised(start, front, server);
      UpdateStaysSynchronised(After(start, front, server), u, PostsAfter(front), server);
    }
  }

  /** Over any updates in which no post comes late, every chosen logbook of the last one is indexed as far
      as it was read. */
  lemma {:induction false} ChosenLogbooksAreComplete(start: Index, updates: seq<Reading>, server: seq<Post>, p: Post)
    requires InOrder(updates, server) && Chronological(server) && NoneLate(updates, server) && updates != []
    requires Synchronised(start, [])
    requires var u := updates[|updates| - 1]; p.logbook in u.chosen && p in server[..u.instants[p.logbook]]
    ensures PostRows(After(start, updates, server).items, p.id) == RowsOf(p)
  {
    StaysSynchronised(start, updates, server);
    LastReadIsDue(start, updates, server, p);
    assert PostOk(After(start, updates, server), p);
  }

  lemma {:induction false} LastReadIsDue(start: Index, updates: seq<Reading>, server: seq<Post>, p: Post)
    requires InOrder(updates, server) && updates != []
    requires var u := updates[|updates| - 1]; p.logbook in u.chosen && p in server[..u.instants[p.logbook]]
    ensures Due(After(start, updates, server), p) && p in server[..PostsAfter(updates)]
  {
    var front, u := updates[..|updates| - 1], updates[|updates| - 1];
    ReadPostsAreDue(Kept(After(start, front, server), u.readable), u.chosen, ViewsOf(u, server), p);
    var i :| 0 <= i < u.instants[p.logbook] && server[i] == p;
    assert server[..u.posts][i] == p;
  }

  /** Rows of the older fetch make no difference: the first update drops them before it starts. */
  lemma OlderRowsMakeNoDifference(items: seq<Item>, chosen: seq<Logbook>, readable: set<Logbook>, views: map<Logbook, seq<Post>>)
    requires forall it :: it in items && IsScilog(it) ==> it.path.logbook.None?
    requires forall lb :: lb in chosen ==> lb in views
    ensures var start := Kept(Index(items, map[]), readable);
            Synchronised(start, []) && Updated(Index(items, map[]), chosen, readable, views) == Updated(start, chosen, readable, views)
  {
    LegacyRowsAreDropped(items, readable);
    var kept := Kept(Index(items, map[]), readable);
    forall it | it in kept.items ensures NotOfOtherLogbooks(readable)(it) {
      FilterMember(items, NotOfOtherLogbooks(readable), it);
    }
    FilterAll(kept.items, NotOfOtherLogbooks(readable));
    assert Kept(kept, readable) == kept;
  }

  // ---------------------------------------------------------------- a post missed is missed for good

  /** A post that is due and has no rows, in a logbook that every update can read. */
  ghost predicate Missed(ix: Index, server: seq<Post>, always: set<Logbook>, p: Post) {
    p in server && Due(ix, p) && PostRows(ix.items, p.id) == [] && p.logbook in always
  }

  /** Every update can read these logbooks, and chooses among them. */
  ghost predicate AlwaysReadable(updates: seq<Reading>, always: set<Logbook>) {
    updates == [] ||
    (AlwaysReadable(updates[..|updates| - 1], always) && ChoosesAmong(updates[|updates| - 1], always))
  }

  ghost predicate ChoosesAmong(u: Reading, always: set<Logbook>) {
    always <= u.readable && forall lb :: lb in u.chosen ==> lb in always
  }

  ghost predicate SomeMissed(ix: Index, server: seq<Post>, always: set<Logbook>) {
    exists p :: Missed(ix, server, always, p)
  }

  lemma LateIsMissed(ix: Index, u: Reading, start: nat, server: seq<Post>, always: set<Logbook>)
    requires Fits(u, start, server) && Chronological(server) && Synchronised(ix, server[..start])
    requires !NoLatecomer(u.chosen, ViewsOf(u, server), server) && ChoosesAmong(u, always)
    ensures SomeMissed(Updated(ix, u.chosen, u.readable, ViewsOf(u, server)), server, always)
  {
    var p :| p in server && Latecomer(u.chosen, ViewsOf(u, server), p);
    LateIsSeen(u, start, server, p);
    ChronologicalPrefix(server, start);
    ChronologicalPrefix(server, u.posts);
    InstantsOwn(u, start, server);
    KeptSynchronised(ix, server[..start], u.readable);
    PostAfterReads(Kept(ix, u.readable), server[..start], server[..u.posts], u.chosen, ViewsOf(u, server), p);
    assert Missed(Updated(ix, u.chosen, u.readable, ViewsOf(u, server)), server, always, p);
  }

  lemma MissedStays(ix: Index, u: Reading, start: nat, server: seq<Post>, always: set<Logbook>, p: Post)
    requires Fits(u, start, server) && Chronological(server) && Missed(ix, server, always, p) && always <= u.readable
    ensures Missed(Updated(ix, u.chosen, u.readable, ViewsOf(u, server)), server, always, p)
  {
    MissedPostStaysMissed(ix, u.chosen, u.readable, ViewsOf(u, server), server, p);
  }

  lemma {:induction false} SomeoneIsMissed(start: Index, updates: seq<Reading>, server: seq<Post>, always: set<Logbook>)
    requires InOrder(updates, server) && Chronological(server) && !NoneLate(updates, server)
    requires Synchronised(start, []) && AlwaysReadable(updates, always)
    ensures SomeMissed(After(start, updates, server), server, always)
  {
    var front, u := updates[..|updates| - 1], updates[|updates| - 1];
    if NoneLate(front, server) {
      StaysSynchronised(start, front, server);
      LateIsMissed(After(start, front, server), u, PostsAfter(front), server, always);
    } else {
      SomeoneIsMissed(start, front, server, always);
      SomeoneStaysMissed(After(start, front, server), u, PostsAfter(front), server, always);
    }
  }

  lemma SomeoneStaysMissed(ix: Index, u: Reading, start: nat, server: seq<Post>, always: set<Logbook>)
    requires Fits(u, start, server) && Chronological(server) && always <= u.readable
    requires SomeMissed(ix, server, always)
    ensures SomeMissed(Updated(ix, u.chosen, u.readable, ViewsOf(u, server)), server, always)
  {
    var p :| Missed(ix, server, always, p);
    MissedStays(ix, u, start, server, always, p);
    assert Missed(Updated(ix, u.chosen, u.readable, ViewsOf(u, server)), server, always, p);
  }

  /** Over any sequence of updates among logbooks that stay readable, each logbook read at its own instant:
      in the end every post up to its logbook's watermark is indexed if and only if in no update a post
      came late. */
  lemma {:induction false} CompleteIffNoneLate(start: Index, updates: seq<Reading>, server: seq<Post>, always: set<Logbook>)
    requires InOrder(updates, server) && Chronological(server)
    requires Synchronised(start, []) && AlwaysReadable(updates, always)
    ensures var ix := After(start, updates, server);
            (forall p :: p in server && Due(ix, p) ==> PostRows(ix.items, p.id) == RowsOf(p)) <==> NoneLate(updates, server)
  {
    var ix := After(start, updates, server);
    if NoneLate(updates, server) {
      StaysSynchronised(start, updates, server);
      forall p | p in server && Due(ix, p) ensures PostRows(ix.items, p.id) == RowsOf(p) {
        DueIsSeen(ix, server, PostsAfter(updates), p);
        assert PostOk(ix, p);
      }
    } else {
      SomeoneIsMissed(start, updates, server, always);
      var p :| Missed(ix, server, always, p);
      assert RowsOf(p) != [];
    }
  }

  lemma DueIsSeen(ix: Index, server: seq<Post>, n: nat, p: Post)
    requires n <= |server| && Chronological(server) && Synchronised(ix, server[..n]) && p in server && Due(ix, p)
    ensures p in server[..n]
  {
    if p !in server[..n] {
      WatermarkBeforeNewPosts(ix, server[..n], server, p);
    }
  }
}
