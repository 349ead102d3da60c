/**
 Notes cut into dated pieces (eco/logs_sources.py, `dated_chunks`).
 */
module DatedChunks {
  import opened Collections
  import opened Text

  /** A time; None where nothing is dated. */
  type Time = Option<int>

  /** What the cutting depends on: the times written in a paragraph, in order, the time of text above
      any date, the limit and the white space. */
  datatype Setting = Setting(dates: string -> seq<int>, defaultTime: Time, maxChars: int, space: Spaces)

  /** Paragraphs that stay together, and their time. */
  datatype Group = Group(t: Time, paras: seq<string>)

  datatype Chunk = Chunk(t: Time, text: string)

  // ---------------------------------------------------------------- how a note is cut

  /** The last time written in the paragraphs. */
  function TimeAfter(paras: seq<string>, s: Setting): Time {
    if paras == [] then s.defaultTime
    else
      var dates := s.dates(paras[|paras| - 1]);
      if dates != [] then Some(dates[|dates| - 1]) else TimeAfter(paras[..|paras| - 1], s)
  }

  /** A paragraph that does not join the ones before it. */
  predicate Breaks(before: seq<string>, para: string, s: Setting) {
    s.dates(para) != [] || TotalLength(before) + |para| > s.maxChars
  }

  function Flatten(groups: seq<Group>): seq<string> {
    if groups == [] then [] else Flatten(groups[..|groups| - 1]) + groups[|groups| - 1].paras
  }

  /** A group of a cutting: it is not empty, only its first paragraph may have a date, and one that
      joined the paragraphs before it did so within the limit. */
  ghost predicate Whole(g: Group, s: Setting) {
    && g.paras != []
    && forall i :: 1 <= i < |g.paras| ==> !Breaks(g.paras[..i], g.paras[i], s)
  }

  /** A new group begins only where its first paragraph does not join the group before it. */
  ghost predicate Separate(g: Group, next: Group, s: Setting) {
    next.paras != [] && Breaks(g.paras, next.paras[0], s)
  }

  /** The last date at or above each paragraph of group `k` is the group's. */
  ghost predicate Dated(groups: seq<Group>, k: nat, s: Setting)
    requires k < |groups|
  {
    forall n: nat :: 1 <= n <= |groups[k].paras| ==> TimeAfter(Flatten(groups[..k]) + groups[k].paras[..n], s) == groups[k].t
  }

  /** The paragraphs in order, cut as late as dates and limit allow. */
  ghost predicate IsCutting(groups: seq<Group>, paras: seq<string>, s: Setting) {
    Flatten(groups) == paras && AllWhole(groups, s) && AllSeparate(groups, s)
  }

  ghost predicate AllWhole(groups: seq<Group>, s: Setting) {
    forall k :: 0 <= k < |groups| ==> Whole(groups[k], s) && Dated(groups, k, s)
  }

  ghost predicate AllSeparate(groups: seq<Group>, s: Setting) {
    forall k :: 0 < k < |groups| ==> Separate(groups[k - 1], groups[k], s)
  }

  // ---------------------------------------------------------------- one paragraph more

  /** The cutting of one paragraph more. */
  function WithPara(groups: seq<Group>, para: string, t: Time, s: Setting): seq<Group> {
    if groups == [] || Breaks(groups[|groups| - 1].paras, para, s) then groups + [Group(t, [para])]
    else
      var last := groups[|groups| - 1];
      groups[..|groups| - 1] + [last.(paras := last.paras + [para])]
  }

  function Groups(paras: seq<string>, s: Setting): seq<Group> {
    if paras == [] then []
    else
      var last := |paras| - 1;
      WithPara(Groups(paras[..last], s), paras[last], TimeAfter(paras, s), s)
  }

  lemma {:induction false} OneMoreGroup(before: seq<string>, para: string, s: Setting)
    ensures var t := TimeAfter(before + [para], s);
            && t == (var dates := s.dates(para); if dates == [] then TimeAfter(before, s) else Some(dates[|dates| - 1]))
            && Groups(before + [para], s) == WithPara(Groups(before, s), para, t, s)
  {
    assert (before + [para])[..|before|] == before;
  }

  lemma DatedInLonger(groups: seq<Group>, g: Group, k: nat, s: Setting)
    requires k < |groups| && Dated(groups, k, s)
    ensures Dated(groups + [g], k, s)
  {
    assert (groups + [g])[..k] == groups[..k];
  }

  lemma {:induction false} FlattenWith(groups: seq<Group>, g: Group)
    ensures Flatten(groups + [g]) == Flatten(groups) + g.paras
  {
    assert (groups + [g])[..|groups|] == groups;
  }

  lemma WholeWith(groups: seq<Group>, g: Group, s: Setting)
    requires AllWhole(groups, s) && Whole(g, s) && Dated(groups + [g], |groups|, s)
    ensures AllWhole(groups + [g], s)
  {
    var all := groups + [g];
    forall k | 0 <= k < |all| ensures Whole(all[k], s) && Dated(all, k, s) {
      if k < |groups| {
        assert all[k] == groups[k] && Whole(groups[k], s);
        DatedInLonger(groups, g, k, s);
      }
    }
  }

  lemma SeparateWith(groups: seq<Group>, g: Group, s: Setting)
    requires AllSeparate(groups, s) && (groups == [] || Separate(groups[|groups| - 1], g, s))
    ensures AllSeparate(groups + [g], s)
  {
    var all := groups + [g];
    forall k | 0 < k < |all| ensures Separate(all[k - 1], all[k], s) {
      if k < |groups| { assert Separate(groups[k - 1], groups[k], s); }
    }
  }

  lemma FirstGroups(groups: seq<Group>, n: nat, s: Setting)
    requires AllWhole(groups, s) && AllSeparate(groups, s) && n <= |groups|
    ensures AllWhole(groups[..n], s) && AllSeparate(groups[..n], s)
  {
    var part := groups[..n];
    forall k | 0 <= k < n ensures Whole(part[k], s) && Dated(part, k, s) {
      assert part[..k] == groups[..k];
      assert Whole(groups[k], s) && Dated(groups, k, s);
    }
    forall k | 0 < k < n ensures Separate(part[k - 1], part[k], s) {
      assert Separate(groups[k - 1], groups[k], s);
    }
  }

  /** The last group may become longer or shorter, its first paragraph kept. */
  lemma LastReplaced(groups: seq<Group>, g: Group, s: Setting)
    requires groups != [] && AllWhole(groups, s) && AllSeparate(groups, s)
    requires Whole(g, s) && Dated(groups[..|groups| - 1] + [g], |groups| - 1, s)
    requires groups[|groups| - 1].paras != [] && g.paras[0] == groups[|groups| - 1].paras[0]
    ensures AllWhole(groups[..|groups| - 1] + [g], s) && AllSeparate(groups[..|groups| - 1] + [g], s)
  {
    var n := |groups| - 1;
    FirstGroups(groups, n, s);
    WholeWith(groups[..n], g, s);
    assert n > 0 ==> Separate(groups[n - 1], groups[n], s);
    SeparateWith(groups[..n], g, s);
  }

  lemma {:induction false} NewGroupDated(groups: seq<Group>, para: string, t: Time, s: Setting)
    requires t == TimeAfter(Flatten(groups) + [para], s)
    ensures Dated(groups + [Group(t, [para])], |groups|, s)
  {
    var all := groups + [Group(t, [para])];
    assert all[..|groups|] == groups && all[|groups|].paras[..1] == [para];
  }

  lemma {:induction false} NewGroupCuts(groups: seq<Group>, paras: seq<string>, para: string, s: Setting)
    requires IsCutting(groups, paras, s)
    requires groups == [] || Breaks(groups[|groups| - 1].paras, para, s)
    ensures IsCutting(groups + [Group(TimeAfter(paras + [para], s), [para])], paras + [para], s)
  {
    var g := Group(TimeAfter(paras + [para], s), [para]);
    FlattenWith(groups, g);
    NewGroupDated(groups, para, g.t, s);
    WholeWith(groups, g, s);
    SeparateWith(groups, g, s);
  }

  lemma JoinedGroupCuts(groups: seq<Group>, paras: seq<string>, para: string, s: Setting)
    requires IsCutting(groups, paras, s)
    requires groups != [] && !Breaks(groups[|groups| - 1].paras, para, s)
    ensures var last := groups[|groups| - 1];
            IsCutting(groups[..|groups| - 1] + [last.(paras := last.paras + [para])], paras + [para], s)
  {
    var n, last := |groups| - 1, groups[|groups| - 1];
    var g := last.(paras := last.paras + [para]);
    assert Whole(last, s) && Dated(groups, n, s);
    FlattenWith(groups[..n], g);
    Associative(Flatten(groups[..n]), last.paras, [para]);
    WholeWithPara(last, para, s);
    DatedWithPara(groups, para, s);
    LastReplaced(groups, g, s);
  }

  lemma WholeWithPara(g: Group, para: string, s: Setting)
    requires Whole(g, s) && !Breaks(g.paras, para, s)
    ensures Whole(g.(paras := g.paras + [para]), s)
  {
    var more := g.paras + [para];
    forall i | 1 <= i < |more| ensures !Breaks(more[..i], more[i], s) {
      assert more[..i] == g.paras[..i];
      assert i == |g.paras| ==> g.paras[..i] == g.paras;
    }
  }

  lemma DatedWithPara(groups: seq<Group>, para: string, s: Setting)
    requires groups != [] && s.dates(para) == [] && groups[|groups| - 1].paras != [] && Dated(groups, |groups| - 1, s)
    ensures var n, last := |groups| - 1, groups[|groups| - 1];
            Dated(groups[..n] + [last.(paras := last.paras + [para])], n, s)
  {
    var n, last := |groups| - 1, groups[|groups| - 1];
    var more := last.paras + [para];
    var all := groups[..n] + [last.(paras := more)];
    var above := Flatten(groups[..n]);
    assert all[..n] == groups[..n];
    forall m: nat | 1 <= m <= |more| ensures TimeAfter(above + more[..m], s) == last.t {
      if m <= |last.paras| {
        assert more[..m] == last.paras[..m];
      } else {
        assert last.paras[..|last.paras|] == last.paras;
        var upTo := above + more;
        assert more[..m] == more;
        assert upTo[..|upTo| - 1] == above + last.paras;
      }
    }
  }

  /** Every paragraph comes out once and in order, dated by the last date at or above it; a group ends
      only where the next paragraph has a date or would exceed the limit. */
  lemma {:induction false} GroupsAreACutting(paras: seq<string>, s: Setting)
    ensures IsCutting(Groups(paras, s), paras, s)
  {
    if paras != [] {
      var front, para := paras[..|paras| - 1], paras[|paras| - 1];
      GroupsAreACutting(front, s);
      assert front + [para] == paras;
      var groups := Groups(front, s);
      if groups == [] || Breaks(groups[|groups| - 1].paras, para, s) {
        NewGroupCuts(groups, front, para, s);
      } else {
        JoinedGroupCuts(groups, front, para, s);
      }
    }
  }

  // ---------------------------------------------------------------- there is no other cutting

  lemma PartOfCutting(groups: seq<Group>, n: nat, paras: seq<string>, s: Setting)
    requires IsCutting(groups, paras, s) && n <= |groups|
    ensures IsCutting(groups[..n], Flatten(groups[..n]), s)
  {
    FirstGroups(groups, n, s);
  }

  lemma ShorterGroup(groups: seq<Group>, s: Setting)
    requires groups != [] && |groups[|groups| - 1].paras| > 1
    requires Whole(groups[|groups| - 1], s) && Dated(groups, |groups| - 1, s)
    ensures var n, last := |groups| - 1, groups[|groups| - 1];
            var less := last.(paras := last.paras[..|last.paras| - 1]);
            Whole(less, s) && Dated(groups[..n] + [less], n, s)
  {
    var n, last := |groups| - 1, groups[|groups| - 1];
    WholeShorter(last, s);
    DatedShorter(groups, last.(paras := last.paras[..|last.paras| - 1]), s);
  }

  lemma DatedShorter(groups: seq<Group>, g: Group, s: Setting)
    requires groups != [] && Dated(groups, |groups| - 1, s)
    requires g.t == groups[|groups| - 1].t && g.paras <= groups[|groups| - 1].paras
    ensures Dated(groups[..|groups| - 1] + [g], |groups| - 1, s)
  {
    var n := |groups| - 1;
    var all := groups[..n] + [g];
    assert all[..n] == groups[..n];
    forall m: nat | 1 <= m <= |g.paras| ensures TimeAfter(Flatten(all[..n]) + all[n].paras[..m], s) == all[n].t {
      assert g.paras[..m] == groups[n].paras[..m];
    }
  }

  lemma WholeShorter(g: Group, s: Setting)
    requires Whole(g, s) && |g.paras| > 1
    ensures Whole(g.(paras := g.paras[..|g.paras| - 1]), s)
  {
    var less := g.paras[..|g.paras| - 1];
    forall i | 1 <= i < |less| ensures !Breaks(less[..i], less[i], s) {
      assert less[..i] == g.paras[..i];
    }
  }

  lemma ShorterLastGroup(groups: seq<Group>, paras: seq<string>, s: Setting)
    requires IsCutting(groups, paras, s) && groups != [] && |groups[|groups| - 1].paras| > 1
    ensures var n, last := |groups| - 1, groups[|groups| - 1];
            IsCutting(groups[..n] + [last.(paras := last.paras[..|last.paras| - 1])], paras[..|paras| - 1], s)
  {
    var n, last := |groups| - 1, groups[|groups| - 1];
    var g := last.(paras := last.paras[..|last.paras| - 1]);
    assert Whole(last, s) && Dated(groups, n, s);
    FlattenWith(groups[..n], g);
    assert Flatten(groups[..n]) + g.paras == paras[..|paras| - 1];
    ShorterGroup(groups, s);
    LastReplaced(groups, g, s);
  }

  /** A cutting ends in the last paragraph, and its last group has that paragraph's time. */
  lemma {:induction false} LastOfCutting(groups: seq<Group>, paras: seq<string>, s: Setting)
    requires IsCutting(groups, paras, s) && paras != []
    ensures groups != []
    ensures var last := groups[|groups| - 1];
            && last.paras != [] && last.paras[|last.paras| - 1] == paras[|paras| - 1]
            && last.t == TimeAfter(paras, s)
            && !(|last.paras| > 1 && Breaks(last.paras[..|last.paras| - 1], paras[|paras| - 1], s))
  {
    var n, last := |groups| - 1, groups[|groups| - 1];
    assert Whole(last, s) && Dated(groups, n, s);
    assert last.paras[..|last.paras|] == last.paras;
    assert Flatten(groups) == Flatten(groups[..n]) + last.paras;
  }

  /** Taking the last paragraph away, and its group with it if it was alone, leaves a cutting. */
  lemma CuttingOfFront(groups: seq<Group>, paras: seq<string>, s: Setting) returns (before: seq<Group>)
    requires IsCutting(groups, paras, s) && paras != []
    ensures IsCutting(before, paras[..|paras| - 1], s)
    ensures groups == WithPara(before, paras[|paras| - 1], TimeAfter(paras, s), s)
  {
    LastOfCutting(groups, paras, s);
    var n, last, para := |groups| - 1, groups[|groups| - 1], paras[|paras| - 1];
    if |last.paras| == 1 {
      before := groups[..n];
      assert last.paras == [para];
      WithoutSingle(groups, paras, s);
    } else {
      var less := last.paras[..|last.paras| - 1];
      before := groups[..n] + [last.(paras := less)];
      ShorterLastGroup(groups, paras, s);
      TakeOneMore(last.paras, |less|);
      TakeAll(last.paras);
    }
  }

  lemma {:induction false} WithoutSingle(groups: seq<Group>, paras: seq<string>, s: Setting)
    requires IsCutting(groups, paras, s) && paras != [] && groups != []
    requires groups[|groups| - 1] == Group(TimeAfter(paras, s), [paras[|paras| - 1]])
    ensures var before := groups[..|groups| - 1];
            && IsCutting(before, paras[..|paras| - 1], s)
            && groups == WithPara(before, paras[|paras| - 1], TimeAfter(paras, s), s)
  {
    var n := |groups| - 1;
    PartOfCutting(groups, n, paras, s);
    assert Flatten(groups) == Flatten(groups[..n]) + [paras[|paras| - 1]];
    assert n > 0 ==> Separate(groups[n - 1], groups[n], s);
    TakeOneMore(groups, n);
    TakeAll(groups);
  }

  lemma {:induction false} NoParagraphsNoGroups(groups: seq<Group>)
    requires forall k :: 0 <= k < |groups| ==> groups[k].paras != []
    ensures Flatten(groups) == [] <==> groups == []
  {
    if groups != [] {
      var n := |groups| - 1;
      assert |Flatten(groups)| == |Flatten(groups[..n])| + |groups[n].paras|;
    }
  }

  /** The groups are the only cutting there is. */
  lemma {:induction false} OnlyOneCutting(groups: seq<Group>, paras: seq<string>, s: Setting)
    ensures IsCutting(groups, paras, s) <==> groups == Groups(paras, s)
    decreases |paras|
  {
    GroupsAreACutting(paras, s);
    if IsCutting(groups, paras, s) {
      forall k | 0 <= k < |groups| ensures groups[k].paras != [] { assert Whole(groups[k], s); }
      NoParagraphsNoGroups(groups);
      if paras != [] {
        var before := CuttingOfFront(groups, paras, s);
        OnlyOneCutting(before, paras[..|paras| - 1], s);
      }
    }
  }

  // ---------------------------------------------------------------- the limit

  /** Only a single paragraph may exceed the limit. */
  lemma {:induction false} GroupsFit(paras: seq<string>, s: Setting, k: nat)
    requires k < |Groups(paras, s)|
    ensures var g := Groups(paras, s)[k].paras; |g| == 1 || TotalLength(g) <= s.maxChars
  {
    GroupsAreACutting(paras, s);
    WholeFits(Groups(paras, s)[k], s);
  }

  lemma WholeFits(g: Group, s: Setting)
    requires Whole(g, s)
    ensures |g.paras| == 1 || TotalLength(g.paras) <= s.maxChars
  {
    var n := |g.paras| - 1;
    if n > 0 {
      assert !Breaks(g.paras[..n], g.paras[n], s);
      assert g.paras == g.paras[..n] + [g.paras[n]];
    }
  }

  const BLANK_LINE := "\n\n"

  function TextOf(g: Group): Chunk { Chunk(g.t, Join(g.paras, BLANK_LINE)) }

  /** The paragraphs collected for the current chunk after `paras`. */
  function Collected(paras: seq<string>, s: Setting): seq<string> {
    if paras == [] then []
    else
      var before, para := Collected(paras[..|paras| - 1], s), paras[|paras| - 1];
      if before == [] || Breaks(before, para, s) then [para] else before + [para]
  }

  /** The guard with the blank lines counted that are put between the paragraphs. */
  predicate FitsWithBlankLines(before: seq<string>, para: string, s: Setting) {
    TotalLength(before) + |para| + |BLANK_LINE| * |before| <= s.maxChars
  }

  /** Paragraph `i` joins the ones collected before it only if there is room for the blank lines too. */
  predicate JoinFits(paras: seq<string>, i: nat, s: Setting)
    requires i < |paras|
  {
    var before := Collected(paras[..i], s);
    before == [] || Breaks(before, paras[i], s) || FitsWithBlankLines(before, paras[i], s)
  }

  /** A chunk's text exceeds the limit only if it is a single paragraph. */
  predicate TextFits(g: Group, s: Setting) { |g.paras| <= 1 || |TextOf(g).text| <= s.maxChars }

  ghost predicate AllTextsFit(groups: seq<Group>, s: Setting) {
    forall k :: 0 <= k < |groups| ==> TextFits(groups[k], s)
  }

  lemma {:induction false} LastGroupIsCollected(paras: seq<string>, s: Setting)
    ensures paras == [] <==> Groups(paras, s) == []
    ensures paras != [] ==> Groups(paras, s)[|Groups(paras, s)| - 1].paras == Collected(paras, s) != []
  {
    if paras != [] { LastGroupIsCollected(paras[..|paras| - 1], s); }
  }

  lemma LongerTextFits(g: Group, para: string, s: Setting)
    requires g.paras != []
    ensures var longer := g.(paras := g.paras + [para]);
            && (TextFits(longer, s) <==> FitsWithBlankLines(g.paras, para, s))
            && (TextFits(longer, s) ==> TextFits(g, s))
  {
    var longer := g.paras + [para];
    JoinLength(longer, BLANK_LINE);
    JoinLength(g.paras, BLANK_LINE);
  }

  /** One paragraph more leaves all texts within the limit exactly if they were and it does. */
  lemma OneMoreFits(groups: seq<Group>, para: string, t: Time, s: Setting)
    requires groups == [] || groups[|groups| - 1].paras != []
    ensures AllTextsFit(WithPara(groups, para, t, s), s) <==>
            && AllTextsFit(groups, s)
            && (groups == [] || Breaks(groups[|groups| - 1].paras, para, s)
                || FitsWithBlankLines(groups[|groups| - 1].paras, para, s))
  {
    var more := WithPara(groups, para, t, s);
    if groups == [] || Breaks(groups[|groups| - 1].paras, para, s) {
      assert more[|groups|] == Group(t, [para]);
      assert forall k :: 0 <= k < |groups| ==> more[k] == groups[k];
    } else {
      var n := |groups| - 1;
      LongerTextFits(groups[n], para, s);
      assert more[n] == groups[n].(paras := groups[n].paras + [para]);
      assert forall k :: 0 <= k < n ==> more[k] == groups[k];
    }
  }

  ghost predicate EveryJoinFits(paras: seq<string>, s: Setting) {
    forall i: nat :: i < |paras| ==> JoinFits(paras, i, s)
  }

  lemma EveryJoinOneMore(paras: seq<string>, s: Setting)
    requires paras != []
    ensures EveryJoinFits(paras, s) <==>
            EveryJoinFits(paras[..|paras| - 1], s) && JoinFits(paras, |paras| - 1, s)
  {
    var n := |paras| - 1;
    if EveryJoinFits(paras, s) {
      forall i: nat | i < n ensures JoinFits(paras[..n], i, s) { JoinFitsInBeginning(paras, i, s); }
    }
    if EveryJoinFits(paras[..n], s) && JoinFits(paras, n, s) {
      forall i: nat | i < |paras| ensures JoinFits(paras, i, s) {
        if i < n { JoinFitsInBeginning(paras, i, s); }
      }
    }
  }

  lemma JoinFitsInBeginning(paras: seq<string>, i: nat, s: Setting)
    requires i + 1 < |paras|
    ensures JoinFits(paras, i, s) <==> JoinFits(paras[..|paras| - 1], i, s)
  {
    assert paras[..|paras| - 1][..i] == paras[..i];
  }

  lemma {:induction false} LastJoinFits(paras: seq<string>, s: Setting)
    requires paras != []
    ensures AllTextsFit(Groups(paras, s), s) <==>
            AllTextsFit(Groups(paras[..|paras| - 1], s), s) && JoinFits(paras, |paras| - 1, s)
  {
    var front := paras[..|paras| - 1];
    LastGroupIsCollected(front, s);
    OneMoreFits(Groups(front, s), paras[|paras| - 1], TimeAfter(paras, s), s);
  }

  /** The limit does not count the blank lines between the paragraphs. The texts of chunks of several
      paragraphs are within it exactly if at every paragraph that joins a chunk there is room for the
      blank lines too. */
  lemma {:induction false} TextsFitIff(paras: seq<string>, s: Setting)
    ensures AllTextsFit(Groups(paras, s), s) <==> EveryJoinFits(paras, s)
  {
    if paras != [] {
      TextsFitIff(paras[..|paras| - 1], s);
      LastJoinFits(paras, s);
      EveryJoinOneMore(paras, s);
    }
  }

  function NoDates(): string -> seq<int> { (_: string) => [] }

  function NoSpace(): Spaces { (_: char) => false }

  lemma {:induction false} OneParagraph(a: string, s: Setting)
    ensures Groups([a], s) == [Group(TimeAfter([a], s), [a])] && Collected([a], s) == [a]
    ensures s.dates(a) == [] ==> TimeAfter([a], s) == s.defaultTime
  {
    assert [a][..0] == [];
  }

  lemma {:induction false} SecondParagraph(a: string, b: string, s: Setting)
    requires s.dates(b) == [] && |a| + |b| <= s.maxChars < |a| + |b| + |BLANK_LINE|
    ensures Groups([a, b], s) == [Group(TimeAfter([a], s), [a, b])] && !JoinFits([a, b], 1, s)
  {
    OneParagraph(a, s);
    assert TotalLength([a]) == |a| && !Breaks([a], b, s);
    assert [a, b][..1] == [a] && TimeAfter([a, b], s) == TimeAfter([a], s);
    assert [a] + [b] == [a, b];
  }

  lemma LengthOfTwo(a: string, b: string)
    ensures |Join([a, b], BLANK_LINE)| == |a| + |BLANK_LINE| + |b|
  {
    JoinLength([a, b], BLANK_LINE);
    assert TotalLength([a, b]) == |a| + |b| by { assert [a, b][..1] == [a] && [a][..0] == []; }
  }

  lemma TwoParagraphsExceedTheLimit()
    ensures var s := Setting(NoDates(), None, 2, NoSpace());
            && Groups(["a", "b"], s) == [Group(None, ["a", "b"])]
            && |TextOf(Groups(["a", "b"], s)[0]).text| == 4 > s.maxChars
            && !JoinFits(["a", "b"], 1, s)
  {
    var s := Setting(NoDates(), None, 2, NoSpace());
    OneParagraph("a", s);
    SecondParagraph("a", "b", s);
    LengthOfTwo("a", "b");
  }

  // ---------------------------------------------------------------- cutting a text

  /** The paragraphs of a text that has been split at blank lines: stripped, empty ones dropped. */
  function Paragraphs(raw: seq<string>, s: Setting): seq<string> {
    if raw == [] then []
    else
      var para := Strip(raw[|raw| - 1], s.space);
      Paragraphs(raw[..|raw| - 1], s) + if para == "" then [] else [para]
  }

  function Texts(groups: seq<Group>): seq<Chunk> {
    seq(|groups|, k requires 0 <= k < |groups| => TextOf(groups[k]))
  }

  /** What the loop holds: finished chunks, the paragraphs collected since, and their time. */
  predicate Holds(groups: seq<Group>, chunks: seq<Chunk>, t: Time, buf: seq<string>) {
    if buf == [] then groups == [] && chunks == []
    else groups != [] && groups[|groups| - 1] == Group(t, buf) && chunks == Texts(groups[..|groups| - 1])
  }

  method Flushed(chunks: seq<Chunk>, t: Time, buf: seq<string>) returns (more: seq<Chunk>)
    ensures more == AfterFlush(chunks, t, buf)
  {
    more := if buf != [] then chunks + [Chunk(t, Join(buf, BLANK_LINE))] else chunks;
  }

  /** What the loop holds after the paragraphs `paras`. */
  ghost predicate ReadSoFar(paras: seq<string>, s: Setting, chunks: seq<Chunk>, t: Time, buf: seq<string>) {
    t == TimeAfter(paras, s) && Holds(Groups(paras, s), chunks, t, buf)
  }

  /** A paragraph that does not join the ones collected finishes their chunk. */
  lemma {:induction false} ParagraphTurn(paras: seq<string>, s: Setting, chunks: seq<Chunk>, t: Time, buf: seq<string>, para: string)
    requires ReadSoFar(paras, s, chunks, t, buf)
    ensures var t' := TimeAfter(paras + [para], s);
            if buf == [] || Breaks(buf, para, s) then ReadSoFar(paras + [para], s, AfterFlush(chunks, t, buf), t', [para])
            else t' == t && ReadSoFar(paras + [para], s, chunks, t', buf + [para])
  {
    OneMoreGroup(paras, para, s);
    var groups, t' := Groups(paras, s), TimeAfter(paras + [para], s);
    if buf == [] || Breaks(buf, para, s) {
      NewGroupHolds(groups, chunks, t, buf, Group(t', [para]));
    } else {
      LongerGroupHolds(groups, chunks, t, buf, para);
    }
  }

  function AfterFlush(chunks: seq<Chunk>, t: Time, buf: seq<string>): seq<Chunk> {
    if buf == [] then chunks else chunks + [TextOf(Group(t, buf))]
  }

  lemma NewGroupHolds(groups: seq<Group>, chunks: seq<Chunk>, t: Time, buf: seq<string>, g: Group)
    requires Holds(groups, chunks, t, buf) && g.paras != []
    ensures Holds(groups + [g], AfterFlush(chunks, t, buf), g.t, g.paras)
  {
    assert (groups + [g])[..|groups|] == groups;
    assert AfterFlush(chunks, t, buf) == Texts(groups);
  }

  lemma LongerGroupHolds(groups: seq<Group>, chunks: seq<Chunk>, t: Time, buf: seq<string>, para: string)
    requires Holds(groups, chunks, t, buf) && buf != []
    ensures Holds(groups[..|groups| - 1] + [Group(t, buf + [para])], chunks, t, buf + [para])
  {
    var front := groups[..|groups| - 1];
    assert (front + [Group(t, buf + [para])])[..|front|] == front;
  }

  /** One paragraph read. */
  method ReadPara(chunks: seq<Chunk>, t: Time, buf: seq<string>, para: string, s: Setting)
    returns (chunks': seq<Chunk>, t': Time, buf': seq<string>)
    ensures t' == var dates := s.dates(para); if dates == [] then t else Some(dates[|dates| - 1])
    ensures if buf == [] || Breaks(buf, para, s) then chunks' == AfterFlush(chunks, t, buf) && buf' == [para]
            else chunks' == chunks && buf' == buf + [para]
  {
    chunks', t', buf' := chunks, t, buf;
    var dates := s.dates(para);
    if dates != [] {
      chunks' := Flushed(chunks, t, buf);
      buf' := [];
      t' := Some(dates[|dates| - 1]);
    }
    if buf' != [] && TotalLength(buf') + |para| > s.maxChars {
      chunks' := Flushed(chunks', t', buf');
      buf' := [];
    }
    buf' := buf' + [para];
  }

  lemma {:induction false} OneMoreParagraph(raw: seq<string>, i: nat, s: Setting)
    requires i < |raw|
    ensures var para, before := Strip(raw[i], s.space), Paragraphs(raw[..i], s);
            Paragraphs(raw[..i + 1], s) == if para == "" then before else before + [para]
  {
    assert raw[..i + 1][..i] == raw[..i];
  }

  method ReadAll(raw: seq<string>, s: Setting) returns (chunks: seq<Chunk>, t: Time, buf: seq<string>)
    ensures ReadSoFar(Paragraphs(raw, s), s, chunks, t, buf)
  {
    chunks, t, buf := [], s.defaultTime, [];
    for i := 0 to |raw|
      invariant ReadSoFar(Paragraphs(raw[..i], s), s, chunks, t, buf)
    {
      var para := Strip(raw[i], s.space);
      OneMoreParagraph(raw, i, s);
      if para != "" {
        ParagraphTurn(Paragraphs(raw[..i], s), s, chunks, t, buf, para);
        OneMoreGroup(Paragraphs(raw[..i], s), para, s);
        chunks, t, buf := ReadPara(chunks, t, buf, para, s);
      }
    }
    TakeAll(raw);
  }

  /** The dated chunks of a text that has been split at blank lines. */
  method DatedChunks(raw: seq<string>, s: Setting) returns (chunks: seq<Chunk>)
    ensures chunks == Texts(Groups(Paragraphs(raw, s), s))
  {
    var t, buf;
    chunks, t, buf := ReadAll(raw, s);
    chunks := Flushed(chunks, t, buf);
  }
}
