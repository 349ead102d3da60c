/**
 What the SciLog index promises over any sequence of updates (eco/logs_scilog.py): every chosen
 logbook is indexed completely up to its watermark, nothing is indexed twice, and nothing of an
 unreadable logbook remains -- provided each update sees one snapshot of the server.
 */
module SciLogSync {
  import opened Collections
  import opened IndexTable
  import opened SciLog

  /** The post is at or before its logbook's watermark. */
  predicate Due(ix: Index, p: Post) { p.logbook in ix.last && p.t <= ix.last[p.logbook] }

  /** A post is indexed, with exactly its own rows, if it is due, and not at all otherwise. */
  ghost predicate PostOk(ix: Index, p: Post) {
    PostRows(ix.items, p.id) == if Due(ix, p) then RowsOf(p) else []
  }

  /** A row of SciLog is filed under a post the server has, in a logbook that has a watermark. */
  ghost predicate RowOk(ix: Index, seen: seq<Post>, it: Item) {
    IsScilog(it) ==> exists p :: p in seen && it.path == PathOf(p) && p.logbook in ix.last
  }

  ghost predicate WatermarkOk(ix: Index, seen: seq<Post>, lb: Logbook) {
    lb in ix.last && exists p :: p in seen && p.t == ix.last[lb]
  }

  /** The index agrees with the first posts of the server, those created so far. */
  ghost predicate Synchronised(ix: Index, seen: seq<Post>) {
    && (forall p :: p in seen ==> PostOk(ix, p))
    && (forall it :: it in ix.items ==> RowOk(ix, seen, it))
    && (forall lb :: lb in ix.last ==> WatermarkOk(ix, seen, lb))
  }

  lemma RowsOfUnknownPost(ix: Index, seen: seq<Post>, id: Id)
    requires Synchronised(ix, seen) && forall p :: p in seen ==> p.id != id
    ensures PostRows(ix.items, id) == []
  {
    forall it | it in ix.items ensures !OfPost(id)(it) {
      assert RowOk(ix, seen, it);
    }
    FilterNone(ix.items, OfPost(id));
  }

  // ---------------------------------------------------------------- dropping unreadable logbooks

  lemma KeptRows(ix: Index, seen: seq<Post>, readable: set<Logbook>, p: Post)
    requires Synchronised(ix, seen) && p in seen
    requires forall q :: q in seen && q.id == p.id ==> q == p
    ensures PostRows(Kept(ix, readable).items, p.id) == if p.logbook in readable then PostRows(ix.items, p.id) else []
  {
    var keep, mine := NotOfOtherLogbooks(readable), OfPost(p.id);
    forall it | it in ix.items && mine(it) ensures keep(it) == (p.logbook in readable) {
      assert RowOk(ix, seen, it);
    }
    if p.logbook in readable {
      FilterTwice(ix.items, keep, mine, mine);
    } else {
      FilterTwice(ix.items, keep, mine, (it: Item) => false);
      FilterNone(ix.items, (it: Item) => false);
    }
  }

  lemma KeptSynchronised(ix: Index, seen: seq<Post>, readable: set<Logbook>)
    requires Synchronised(ix, seen) && Chronological(seen)
    ensures Synchronised(Kept(ix, readable), seen)
    ensures forall lb :: lb in Kept(ix, readable).last ==> lb in readable
  {
    var kept := Kept(ix, readable);
    forall p | p in seen ensures PostOk(kept, p) {
      assert PostOk(ix, p);
      KeptRows(ix, seen, readable, p);
    }
    forall it | it in kept.items ensures RowOk(kept, seen, it) {
      FilterMember(ix.items, NotOfOtherLogbooks(readable), it);
      assert RowOk(ix, seen, it);
    }
    forall lb | lb in kept.last ensures WatermarkOk(kept, seen, lb) {
      assert WatermarkOk(ix, seen, lb);
    }
  }

  /** Rows the older fetch left behind, which name no logbook, are gone after the first update. */
  lemma LegacyRowsAreDropped(items: seq<Item>, readable: set<Logbook>)
    requires forall it :: it in items && IsScilog(it) ==> it.path.logbook.None?
    ensures Synchronised(Kept(Index(items, map[]), readable), [])
  {
    var kept := Kept(Index(items, map[]), readable);
    forall it | it in kept.items ensures !IsScilog(it) {
      FilterMember(items, NotOfOtherLogbooks(readable), it);
    }
  }

  // ---------------------------------------------------------------- the newest time seen

  lemma {:induction false} LastTimeBounds(posts: seq<Post>)
    ensures LastTime(posts).None? <==> posts == []
    ensures forall p :: p in posts ==> p.t <= LastTime(posts).value
    ensures posts != [] ==> exists p :: p in posts && p.t == LastTime(posts).value
  {
    if posts != [] {
      var front, last := posts[..|posts| - 1], posts[|posts| - 1];
      LastTimeBounds(front);
      assert posts == front + [last];
      if front != [] {
        var q :| q in front && q.t == LastTime(front).value;
        assert q in posts;
      }
      assert last in posts;
    }
  }

  /** Where the newest time an update has seen comes from. */
  ghost predicate Source(last: map<Logbook, real>, posts: map<Logbook, seq<Post>>, lb: Logbook, t: real) {
    (lb in last && last[lb] == t) || (lb in posts && exists p :: p in posts[lb] && p.t == t)
  }

  ghost predicate NotAfter(posts: seq<Post>, t: Option<real>) {
    forall p :: p in posts ==> t.Some? && p.t <= t.value
  }

  lemma {:induction false} NewestSeenBounds(last: map<Logbook, real>, chosen: seq<Logbook>, posts: map<Logbook, seq<Post>>)
    requires forall lb :: lb in chosen ==> lb in posts
    ensures var newest := NewestSeen(last, chosen, posts);
            && (forall lb :: lb in chosen && lb in last ==> newest.Some? && last[lb] <= newest.value)
            && (forall lb :: lb in chosen ==> NotAfter(posts[lb], newest))
            && (newest.Some? ==> exists lb :: lb in chosen && Source(last, posts, lb, newest.value))
  {
    if chosen != [] {
      var front, lb := chosen[..|chosen| - 1], chosen[|chosen| - 1];
      assert chosen == front + [lb];
      NewestSeenBounds(last, front, posts);
      LastTimeBounds(posts[lb]);
      var newest, before := NewestSeen(last, chosen, posts), NewestSeen(last, front, posts);
      forall l | l in chosen ensures NotAfter(posts[l], newest) {
        if l in front { assert NotAfter(posts[l], before); } else { assert l == lb; }
      }
      if newest.Some? && !Source(last, posts, lb, newest.value) {
        var other :| other in front && Source(last, posts, other, newest.value);
        assert other in chosen;
      }
    }
  }

  // ---------------------------------------------------------------- one update

  /** Every logbook an update reads is read at the same instant. */
  ghost predicate OneSnapshot(chosen: seq<Logbook>, views: map<Logbook, seq<Post>>, seen: seq<Post>) {
    forall lb :: lb in chosen ==> lb in views && views[lb] == seen
  }

  /** Every logbook an update reads is read while the server has no more posts than these. */
  ghost predicate ReadWithin(chosen: seq<Logbook>, views: map<Logbook, seq<Post>>, seen: seq<Post>) {
    forall lb :: lb in chosen ==> lb in views && views[lb] <= seen
  }

  lemma FetchedMember(last: map<Logbook, real>, chosen: seq<Logbook>, views: map<Logbook, seq<Post>>, lb: Logbook, p: Post)
    requires (forall l :: l in chosen ==> l in views) && lb in chosen
    ensures p in Fetched(last, chosen, views)[lb] <==> p in views[lb] && p.logbook == lb && (lb in last ==> p.t > last[lb])
  {
    MatchingMember(views[lb], {lb}, if lb in last then Some(last[lb]) else None, p);
  }

  lemma FetchedUnique(last: map<Logbook, real>, chosen: seq<Logbook>, views: map<Logbook, seq<Post>>, server: seq<Post>)
    requires forall lb :: lb in chosen ==> lb in views && views[lb] <= server
    requires Chronological(server)
    ensures UniquePosts(chosen, Fetched(last, chosen, views))
  {
    var posts: map<Logbook, seq<Post>> := Fetched(last, chosen, views);
    forall lb | lb in chosen ensures forall i, j :: 0 <= i < j < |posts[lb]| ==> posts[lb][i].id != posts[lb][j].id {
      MatchingChronological(views[lb], {lb}, if lb in last then Some(last[lb]) else None);
    }
    forall a, b, p, q | a in chosen && b in chosen && p in posts[a] && q in posts[b] && p.id == q.id ensures p == q {
      FetchedMember(last, chosen, views, a, p);
      FetchedMember(last, chosen, views, b, q);
      SameIdSamePost(server, p, q);
    }
  }

  lemma SameIdSamePost(server: seq<Post>, p: Post, q: Post)
    requires Chronological(server) && p in server && q in server && p.id == q.id
    ensures p == q
  {
    var i :| 0 <= i < |server| && server[i] == p;
    var j :| 0 <= j < |server| && server[j] == q;
  }

  /** A watermark is older than every post created after the update that set it. */
  lemma WatermarkBeforeNewPosts(ix: Index, seen: seq<Post>, server: seq<Post>, p: Post)
    requires Synchronised(ix, seen) && seen <= server && Chronological(server) && p in server && p !in seen
    ensures !Due(ix, p)
  {
    if p.logbook in ix.last {
      assert WatermarkOk(ix, seen, p.logbook);
      var q :| q in seen && q.t == ix.last[p.logbook];
      OlderThanNewPosts(seen, server, q, p);
    }
  }

  /** A fetched post is indexed and due afterwards. */
  lemma FetchedPostOk(ix: Index, chosen: seq<Logbook>, posts: map<Logbook, seq<Post>>, lb: Logbook, p: Post)
    requires (forall l :: l in chosen ==> l in posts) && UniquePosts(chosen, posts)
    requires lb in chosen && p in posts[lb] && p.logbook == lb
    ensures Due(Added(ix, chosen, posts), p) && PostOk(Added(ix, chosen, posts), p)
  {
    NewestSeenBounds(ix.last, chosen, posts);
    assert NotAfter(posts[lb], NewestSeen(ix.last, chosen, posts));
    WrittenRows(ix.items, chosen, posts, p.id);
  }

  /** A post that was not fetched keeps its rows, and stays due if it was. */
  lemma OtherPostOk(ix: Index, chosen: seq<Logbook>, posts: map<Logbook, seq<Post>>, p: Post)
    requires (forall l :: l in chosen ==> l in posts) && UniquePosts(chosen, posts)
    requires forall lb :: lb in chosen ==> p.id !in Ids(posts[lb])
    requires PostOk(ix, p) && (p.logbook in chosen ==> Due(ix, p))
    ensures PostOk(Added(ix, chosen, posts), p) && (p.logbook in chosen ==> Due(Added(ix, chosen, posts), p))
  {
    NewestSeenBounds(ix.last, chosen, posts);
    WrittenRows(ix.items, chosen, posts, p.id);
  }

  lemma NotFetchedById(last: map<Logbook, real>, chosen: seq<Logbook>, views: map<Logbook, seq<Post>>, server: seq<Post>, p: Post)
    requires (forall lb :: lb in chosen ==> lb in views && views[lb] <= server) && Chronological(server) && p in server
    requires p.logbook in chosen ==> p !in Fetched(last, chosen, views)[p.logbook]
    ensures forall lb :: lb in chosen ==> p.id !in Ids(Fetched(last, chosen, views)[lb])
  {
    var posts: map<Logbook, seq<Post>> := Fetched(last, chosen, views);
    forall lb | lb in chosen ensures p.id !in Ids(posts[lb]) {
      forall q | q in posts[lb] ensures q.id != p.id {
        FetchedMember(last, chosen, views, lb, q);
        if q.id == p.id { SameIdSamePost(server, p, q); }
      }
    }
  }

  /** The rows and the watermark of one post after an update on one snapshot. */
  lemma PostAfterUpdate(ix: Index, before: seq<Post>, seen: seq<Post>, chosen: seq<Logbook>, views: map<Logbook, seq<Post>>, p: Post)
    requires Synchronised(ix, before) && before <= seen && Chronological(seen) && p in seen
    requires OneSnapshot(chosen, views, seen)
    ensures var ix' := Added(ix, chosen, Fetched(ix.last, chosen, views));
            PostOk(ix', p) && (p.logbook in chosen ==> Due(ix', p))
  {
    var posts: map<Logbook, seq<Post>> := Fetched(ix.last, chosen, views);
    FetchedUnique(ix.last, chosen, views, seen);
    if p.logbook in chosen { FetchedMember(ix.last, chosen, views, p.logbook, p); }
    if p.logbook in chosen && p in posts[p.logbook] {
      FetchedPostOk(ix, chosen, posts, p.logbook, p);
    } else {
      NotFetchedById(ix.last, chosen, views, seen, p);
      OldRowsOfPost(ix, before, seen, p);
      OtherPostOk(ix, chosen, posts, p);
    }
  }

  lemma OldRowsOfPost(ix: Index, before: seq<Post>, seen: seq<Post>, p: Post)
    requires Synchronised(ix, before) && before <= seen && Chronological(seen) && p in seen
    ensures PostOk(ix, p)
  {
    if p !in before {
      WatermarkBeforeNewPosts(ix, before, seen, p);
      forall q | q in before ensures q.id != p.id {
        if q.id == p.id { SameIdSamePost(seen, p, q); }
      }
      RowsOfUnknownPost(ix, before, p.id);
    }
  }

  lemma AddedRowOk(ix: Index, before: seq<Post>, seen: seq<Post>, chosen: seq<Logbook>, views: map<Logbook, seq<Post>>, it: Item)
    requires Synchronised(ix, before) && before <= seen && ReadWithin(chosen, views, seen)
    requires it in Added(ix, chosen, Fetched(ix.last, chosen, views)).items
    ensures RowOk(Added(ix, chosen, Fetched(ix.last, chosen, views)), seen, it)
  {
    var posts: map<Logbook, seq<Post>> := Fetched(ix.last, chosen, views);
    WrittenMember(ix.items, chosen, posts, it);
    if it in ix.items {
      NewestSeenBounds(ix.last, chosen, posts);
      assert RowOk(ix, before, it);
    } else {
      var lb, p :| lb in chosen && p in posts[lb] && it in RowsOf(p);
      FetchedRowOk(ix, seen, chosen, views, lb, p, it);
    }
  }

  lemma FetchedRowOk(ix: Index, seen: seq<Post>, chosen: seq<Logbook>, views: map<Logbook, seq<Post>>, lb: Logbook, p: Post, it: Item)
    requires ReadWithin(chosen, views, seen)
    requires lb in chosen && p in Fetched(ix.last, chosen, views)[lb] && it in RowsOf(p)
    ensures RowOk(Added(ix, chosen, Fetched(ix.last, chosen, views)), seen, it)
  {
    var posts: map<Logbook, seq<Post>> := Fetched(ix.last, chosen, views);
    NewestSeenBounds(ix.last, chosen, posts);
    FetchedMember(ix.last, chosen, views, lb, p);
    RowsOfAPost(p, p.id);
    assert NotAfter(posts[lb], NewestSeen(ix.last, chosen, posts));
  }

  lemma AddedWatermarkOk(ix: Index, before: seq<Post>, seen: seq<Post>, chosen: seq<Logbook>, views: map<Logbook, seq<Post>>, lb: Logbook)
    requires Synchronised(ix, before) && before <= seen && ReadWithin(chosen, views, seen)
    ensures var ix' := Added(ix, chosen, Fetched(ix.last, chosen, views));
            lb in ix'.last ==> WatermarkOk(ix', seen, lb)
  {
    var posts: map<Logbook, seq<Post>> := Fetched(ix.last, chosen, views);
    var newest := NewestSeen(ix.last, chosen, posts);
    NewestSeenBounds(ix.last, chosen, posts);
    if newest.Some? && lb in chosen {
      var other :| other in chosen && Source(ix.last, posts, other, newest.value);
      if other in ix.last && ix.last[other] == newest.value {
        assert WatermarkOk(ix, before, other);
      } else {
        var p :| p in posts[other] && p.t == newest.value;
        FetchedMember(ix.last, chosen, views, other, p);
      }
    } else if lb in ix.last {
      assert WatermarkOk(ix, before, lb);
    }
  }

  /** One update that sees one snapshot keeps the index synchronised with it: every post of a chosen
      logbook is indexed, and nothing of a logbook that cannot be read remains. */
  lemma UpdateSynchronises(ix: Index, before: seq<Post>, seen: seq<Post>, chosen: seq<Logbook>, readable: set<Logbook>,
                           views: map<Logbook, seq<Post>>)
    requires Synchronised(ix, before) && before <= seen && Chronological(seen)
    requires OneSnapshot(chosen, views, seen) && forall lb :: lb in chosen ==> lb in readable
    ensures var ix' := Updated(ix, chosen, readable, views);
            && Synchronised(ix', seen)
            && (forall p :: p in seen && p.logbook in chosen ==> Due(ix', p))
            && (forall lb :: lb in ix'.last ==> lb in readable)
            && OtherRows(ix'.items) == OtherRows(ix.items)
  {
    assert Chronological(before) by {
      forall i, j | 0 <= i < j < |before| ensures before[i].t < before[j].t && before[i].id != before[j].id {
        assert seen[i] == before[i] && seen[j] == before[j];
      }
    }
    KeptSynchronised(ix, before, readable);
    var kept := Kept(ix, readable);
    var posts: map<Logbook, seq<Post>> := Fetched(kept.last, chosen, views);
    var ix' := Updated(ix, chosen, readable, views);
    assert ix' == Added(kept, chosen, posts);
    forall p | p in seen ensures PostOk(ix', p) && (p.logbook in chosen ==> Due(ix', p)) {
      PostAfterUpdate(kept, before, seen, chosen, views, p);
    }
    forall it | it in ix'.items ensures RowOk(ix', seen, it) {
      AddedRowOk(kept, before, seen, chosen, views, it);
    }
    forall lb | lb in ix'.last ensures WatermarkOk(ix', seen, lb) {
      AddedWatermarkOk(kept, before, seen, chosen, views, lb);
    }
    OtherRowsAfterForgetting(ix.items, NotOfOtherLogbooks(readable));
    WrittenKeepsOthers(kept.items, chosen, posts);
  }

  // ---------------------------------------------------------------- any sequence of updates

  /** One update: the logbooks chosen, those readable, and how many posts the server had. */
  datatype Update = Update(chosen: seq<Logbook>, readable: set<Logbook>, posts: nat)

  ghost function Views(u: Update, server: seq<Post>): map<Logbook, seq<Post>>
    requires u.posts <= |server|
  {
    map lb | lb in u.chosen :: server[..u.posts]
  }

  /** The server only grows; what is chosen is readable. */
  ghost predicate Possible(updates: seq<Update>, server: seq<Post>) {
    && (forall u :: u in updates ==> u.posts <= |server| && forall lb :: lb in u.chosen ==> lb in u.readable)
    && (forall i, j :: 0 <= i < j < |updates| ==> updates[i].posts <= updates[j].posts)
  }

  ghost function AfterUpdates(ix: Index, updates: seq<Update>, server: seq<Post>): Index
    requires forall u :: u in updates ==> u.posts <= |server|
  {
    if updates == [] then ix
    else
      var u := updates[|updates| - 1];
      Updated(AfterUpdates(ix, updates[..|updates| - 1], server), u.chosen, u.readable, Views(u, server))
  }

  lemma ChronologicalPrefix(server: seq<Post>, n: nat)
    requires Chronological(server) && n <= |server|
    ensures Chronological(server[..n])
  {
  }

  lemma {:induction false} UpdatesSynchronise(items: seq<Item>, updates: seq<Update>, server: seq<Post>)
    requires forall it :: it in items && IsScilog(it) ==> it.path.logbook.None?
    requires Chronological(server) && Possible(updates, server) && updates != []
    ensures var u := updates[|updates| - 1];
            var ix := AfterUpdates(Index(items, map[]), updates, server);
            && Synchronised(ix, server[..u.posts])
            && (forall p :: p in server[..u.posts] && p.logbook in u.chosen ==> Due(ix, p))
            && (forall lb :: lb in ix.last ==> lb in u.readable)
            && OtherRows(ix.items) == OtherRows(items)
  {
    var front, u := updates[..|updates| - 1], updates[|updates| - 1];
    ChronologicalPrefix(server, u.posts);
    assert u in updates;
    if front == [] {
      FirstUpdate(items, u, server);
    } else {
      assert Possible(front, server) by {
        assert forall v :: v in front ==> v in updates;
        assert forall i :: 0 <= i < |front| ==> front[i] == updates[i];
      }
      UpdatesSynchronise(items, front, server);
      var before := front[|front| - 1];
      assert before == updates[|front| - 1];
      assert server[..before.posts] <= server[..u.posts];
      UpdateSynchronises(AfterUpdates(Index(items, map[]), front, server), server[..before.posts], server[..u.posts],
                         u.chosen, u.readable, Views(u, server));
    }
  }

  /** The first update drops what the older fetch left, and then starts from nothing. */
  lemma FirstUpdate(items: seq<Item>, u: Update, server: seq<Post>)
    requires forall it :: it in items && IsScilog(it) ==> it.path.logbook.None?
    requires Chronological(server) && u.posts <= |server| && forall lb :: lb in u.chosen ==> lb in u.readable
    ensures var ix := Updated(Index(items, map[]), u.chosen, u.readable, Views(u, server));
            && Synchronised(ix, server[..u.posts])
            && (forall p :: p in server[..u.posts] && p.logbook in u.chosen ==> Due(ix, p))
            && (forall lb :: lb in ix.last ==> lb in u.readable)
            && OtherRows(ix.items) == OtherRows(items)
  {
    ChronologicalPrefix(server, u.posts);
    var start := Index(items, map[]);
    var kept := Kept(start, u.readable);
    LegacyRowsAreDropped(items, u.readable);
    assert Kept(kept, u.readable) == kept by {
      forall it | it in kept.items ensures NotOfOtherLogbooks(u.readable)(it) {
        FilterMember(items, NotOfOtherLogbooks(u.readable), it);
      }
      FilterAll(kept.items, NotOfOtherLogbooks(u.readable));
    }
    OtherRowsAfterForgetting(items, NotOfOtherLogbooks(u.readable));
    UpdateSynchronises(kept, [], server[..u.posts], u.chosen, u.readable, Views(u, server));
  }

  /** Over any sequence of updates with changing choices of logbooks: a post the server had at the last
      update is indexed with exactly its own rows, or, if its logbook has no watermark or one before the
      post, not at all; a chosen logbook is indexed completely; no row and no watermark of a logbook
      that cannot be read remains; and rows that are not from SciLog are untouched. */
  lemma {:induction false} EveryChosenLogbookIsComplete(items: seq<Item>, updates: seq<Update>, server: seq<Post>, p: Post)
    requires forall it :: it in items && IsScilog(it) ==> it.path.logbook.None?
    requires Chronological(server) && Possible(updates, server) && updates != []
    requires p in server[..updates[|updates| - 1].posts]
    ensures var u := updates[|updates| - 1];
            var ix := AfterUpdates(Index(items, map[]), updates, server);
            && PostRows(ix.items, p.id) == (if Due(ix, p) then RowsOf(p) else [])
            && (p.logbook in u.chosen ==> PostRows(ix.items, p.id) == RowsOf(p))
            && (forall lb :: lb in ix.last ==> lb in u.readable)
            && (forall it :: it in ix.items && IsScilog(it) ==> it.path.logbook.Some? && it.path.logbook.value in u.readable)
            && OtherRows(ix.items) == OtherRows(items)
  {
    UpdatesSynchronise(items, updates, server);
    var u := updates[|updates| - 1];
    var ix := AfterUpdates(Index(items, map[]), updates, server);
    assert PostOk(ix, p);
    forall it | it in ix.items && IsScilog(it) ensures it.path.logbook.Some? && it.path.logbook.value in u.readable {
      assert RowOk(ix, server[..u.posts], it);
    }
  }

  // ---------------------------------------------------------------- reads at different instants

  /** Each chosen logbook is read at its own instant, none before the last update. */
  ghost predicate OwnInstants(chosen: seq<Logbook>, views: map<Logbook, seq<Post>>, before: seq<Post>, server: seq<Post>) {
    forall lb :: lb in chosen ==> lb in views && before <= views[lb] <= server
  }

  /** A post that came after its logbook was read, while the read of some chosen logbook already showed
      a post of that logbook that is no older. */
  predicate Latecomer(chosen: seq<Logbook>, views: map<Logbook, seq<Post>>, p: Post)
    requires forall lb :: lb in chosen ==> lb in views
  {
    && p.logbook in chosen && p !in views[p.logbook]
    && exists lb, q :: lb in chosen && q in views[lb] && q.logbook == lb && p.t <= q.t
  }

  /** A post at or before its logbook's new watermark that came after the logbook was read. */
  predicate PassedOver(ix': Index, chosen: seq<Logbook>, views: map<Logbook, seq<Post>>, p: Post)
    requires forall lb :: lb in chosen ==> lb in views
  {
    p.logbook in chosen && Due(ix', p) && p !in views[p.logbook]
  }

  /** The new watermark passes over exactly the latecomers. */
  lemma LatecomersArePassedOver(ix: Index, before: seq<Post>, server: seq<Post>, chosen: seq<Logbook>,
                                views: map<Logbook, seq<Post>>, p: Post)
    requires Synchronised(ix, before) && before <= server && Chronological(server) && p in server
    requires OwnInstants(chosen, views, before, server)
    ensures Latecomer(chosen, views, p) <==> PassedOver(Added(ix, chosen, Fetched(ix.last, chosen, views)), chosen, views, p)
  {
    if Latecomer(chosen, views, p) {
      LateIsPassedOver(ix, chosen, views, p);
    }
    if PassedOver(Added(ix, chosen, Fetched(ix.last, chosen, views)), chosen, views, p) {
      forall q | q in before ensures q.t < p.t { OlderThanNewPosts(before, server, q, p); }
      assert NewerThanWatermarks(ix.last, p.t) by {
        forall lb | lb in ix.last ensures ix.last[lb] < p.t { assert WatermarkOk(ix, before, lb); }
      }
      PassedOverIsLate(ix, chosen, views, p);
    }
  }

  ghost predicate NewerThanWatermarks(last: map<Logbook, real>, t: real) {
    forall lb :: lb in last ==> last[lb] < t
  }

  lemma LateIsPassedOver(ix: Index, chosen: seq<Logbook>, views: map<Logbook, seq<Post>>, p: Post)
    requires forall lb :: lb in chosen ==> lb in views
    ensures Latecomer(chosen, views, p) ==> PassedOver(Added(ix, chosen, Fetched(ix.last, chosen, views)), chosen, views, p)
  {
    if Latecomer(chosen, views, p) {
      var posts: map<Logbook, seq<Post>> := Fetched(ix.last, chosen, views);
      NewestSeenBounds(ix.last, chosen, posts);
      var lb, q :| lb in chosen && q in views[lb] && q.logbook == lb && p.t <= q.t;
      FetchedMember(ix.last, chosen, views, lb, q);
      assert NotAfter(posts[lb], NewestSeen(ix.last, chosen, posts));
    }
  }

  lemma PassedOverIsLate(ix: Index, chosen: seq<Logbook>, views: map<Logbook, seq<Post>>, p: Post)
    requires forall lb :: lb in chosen ==> lb in views
    ensures NewerThanWatermarks(ix.last, p.t) && PassedOver(Added(ix, chosen, Fetched(ix.last, chosen, views)), chosen, views, p) ==>
              Latecomer(chosen, views, p)
  {
    var posts: map<Logbook, seq<Post>> := Fetched(ix.last, chosen, views);
    if NewerThanWatermarks(ix.last, p.t) && PassedOver(Added(ix, chosen, posts), chosen, views, p) {
      var newest := NewestSeen(ix.last, chosen, posts);
      NewestSeenBounds(ix.last, chosen, posts);
      var lb :| lb in chosen && Source(ix.last, posts, lb, newest.value);
      var q :| q in posts[lb] && q.t == newest.value;
      FetchedMember(ix.last, chosen, views, lb, q);
    }
  }

  lemma OlderThanNewPosts(seen: seq<Post>, server: seq<Post>, q: Post, p: Post)
    requires seen <= server && Chronological(server) && q in seen && p in server && p !in seen
    ensures q.t < p.t
  {
    var i :| 0 <= i < |seen| && seen[i] == q;
    var j :| 0 <= j < |server| && server[j] == p;
    assert server[i] == q;
    assert forall k :: 0 <= k < |seen| ==> server[k] == seen[k] && seen[k] != p;
  }

  lemma PostAfterReads(ix: Index, before: seq<Post>, server: seq<Post>, chosen: seq<Logbook>, views: map<Logbook, seq<Post>>, p: Post)
    requires Synchronised(ix, before) && before <= server && Chronological(server) && p in server
    requires OwnInstants(chosen, views, before, server)
    ensures var ix' := Added(ix, chosen, Fetched(ix.last, chosen, views));
            Due(ix', p) ==> (PostRows(ix'.items, p.id) == RowsOf(p) <==> !Latecomer(chosen, views, p))
    ensures var ix' := Added(ix, chosen, Fetched(ix.last, chosen, views));
            Latecomer(chosen, views, p) ==> Due(ix', p) && PostRows(ix'.items, p.id) == []
  {
    var posts: map<Logbook, seq<Post>> := Fetched(ix.last, chosen, views);
    FetchedUnique(ix.last, chosen, views, server);
    LatecomersArePassedOver(ix, before, server, chosen, views, p);
    if p.logbook in chosen { FetchedMember(ix.last, chosen, views, p.logbook, p); }
    if p.logbook in chosen && p in posts[p.logbook] {
      FetchedPostOk(ix, chosen, posts, p.logbook, p);
    } else {
      PostNotFetched(ix, before, server, chosen, views, p);
    }
  }

  /** A post that the update did not fetch keeps the rows it had. */
  lemma PostNotFetched(ix: Index, before: seq<Post>, server: seq<Post>, chosen: seq<Logbook>, views: map<Logbook, seq<Post>>, p: Post)
    requires Synchronised(ix, before) && before <= server && Chronological(server) && p in server
    requires OwnInstants(chosen, views, before, server)
    requires p.logbook in chosen ==> p !in Fetched(ix.last, chosen, views)[p.logbook]
    ensures var ix' := Added(ix, chosen, Fetched(ix.last, chosen, views));
            && (Due(ix', p) ==> (PostRows(ix'.items, p.id) == RowsOf(p) <==> !PassedOver(ix', chosen, views, p)))
            && (PassedOver(ix', chosen, views, p) ==> PostRows(ix'.items, p.id) == [])
  {
    FetchedUnique(ix.last, chosen, views, server);
    NotFetchedById(ix.last, chosen, views, server, p);
    OldRowsOfPost(ix, before, server, p);
    WrittenRows(ix.items, chosen, Fetched(ix.last, chosen, views), p.id);
    if p.logbook in chosen {
      FetchedMember(ix.last, chosen, views, p.logbook, p);
      if p !in views[p.logbook] {
        assert p !in before;
        WatermarkBeforeNewPosts(ix, before, server, p);
      }
    }
  }

  /** Without one snapshot: after an update in which each logbook was read at its own instant, every post
      up to its logbook's watermark is indexed exactly when no post reached a logbook after that logbook
      was read while the read of another one already showed a post no older. */
  lemma CompleteIffNoLatecomer(ix: Index, before: seq<Post>, server: seq<Post>, chosen: seq<Logbook>, readable: set<Logbook>,
                               views: map<Logbook, seq<Post>>)
    requires Synchronised(ix, before) && Chronological(server) && before <= server
    requires OwnInstants(chosen, views, before, server)
    ensures var ix' := Updated(ix, chosen, readable, views);
            (forall p :: p in server && Due(ix', p) ==> PostRows(ix'.items, p.id) == RowsOf(p))
            <==> (forall p :: p in server ==> !Latecomer(chosen, views, p))
  {
    assert before == server[..|before|];
    ChronologicalPrefix(server, |before|);
    KeptSynchronised(ix, before, readable);
    var kept := Kept(ix, readable);
    forall p | p in server ensures var ix' := Updated(ix, chosen, readable, views);
                                   && (Due(ix', p) ==> (PostRows(ix'.items, p.id) == RowsOf(p) <==> !Latecomer(chosen, views, p)))
                                   && (Latecomer(chosen, views, p) ==> Due(ix', p))
    {
      PostAfterReads(kept, before, server, chosen, views, p);
    }
  }

  /** A missed post is missed for good: no later update fetches a post at or before the watermark, while
      its logbook stays readable. */
  lemma MissedPostStaysMissed(ix: Index, chosen: seq<Logbook>, readable: set<Logbook>, views: map<Logbook, seq<Post>>,
                              server: seq<Post>, p: Post)
    requires (forall lb :: lb in chosen ==> lb in views && views[lb] <= server) && Chronological(server) && p in server
    requires Due(ix, p) && p.logbook in readable && PostRows(ix.items, p.id) == []
    ensures var ix' := Updated(ix, chosen, readable, views);
            Due(ix', p) && PostRows(ix'.items, p.id) == []
  {
    var kept := Kept(ix, readable);
    var posts: map<Logbook, seq<Post>> := Fetched(kept.last, chosen, views);
    FetchedUnique(kept.last, chosen, views, server);
    if p.logbook in chosen { FetchedMember(kept.last, chosen, views, p.logbook, p); }
    NotFetchedById(kept.last, chosen, views, server, p);
    NoRowsKept(ix, readable, p.id);
    WrittenRows(kept.items, chosen, posts, p.id);
    NewestSeenBounds(kept.last, chosen, posts);
  }

  lemma NoRowsKept(ix: Index, readable: set<Logbook>, id: Id)
    requires PostRows(ix.items, id) == []
    ensures PostRows(Kept(ix, readable).items, id) == []
  {
    var both := (it: Item) => NotOfOtherLogbooks(readable)(it) && OfPost(id)(it);
    FilterTwice(ix.items, NotOfOtherLogbooks(readable), OfPost(id), both);
    FilterTwice(ix.items, OfPost(id), NotOfOtherLogbooks(readable), both);
  }

  /** It happens whenever logbook a is read, then a post is written in a and one in b, and only then b
      is read, both for the first time. */
  lemma ReadsAtDifferentInstantsLoseAPost(a: Logbook, b: Logbook, inA: Post, inB: Post)
    requires a != b && inA.logbook == a && inB.logbook == b && inA.t < inB.t && inA.id != inB.id
    ensures var ix' := Added(Index([], map[]), [a, b], Fetched(map[], [a, b], map[a := [], b := [inA, inB]]));
            Due(ix', inA) && PostRows(ix'.items, inA.id) == []
  {
    var server, chosen, views := [inA, inB], [a, b], map[a := [], b := [inA, inB]];
    var empty := Index([], map[]);
    var posts: map<Logbook, seq<Post>> := Fetched(map[], chosen, views);
    assert a in chosen && b in chosen && inB in server && inA in server;
    FetchedMember(map[], chosen, views, b, inB);
    NewestSeenBounds(map[], chosen, posts);
    assert NotAfter(posts[b], NewestSeen(map[], chosen, posts));
    PostAfterReads(empty, [], server, chosen, views, inA);
  }
}
