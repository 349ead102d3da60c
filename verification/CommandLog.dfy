/**
 The commands of a kernel log with what came of them (eco/logs_ask.py, `_command_episodes`).
 */
module CommandLog {
  import opened Collections
  import opened Text

  datatype Status = Fine | Warned | Failed

  function Rank(s: Status): nat { if s.Fine? then 0 else if s.Warned? then 1 else 2 }

  /** One line of the log. An output carries its classification and the text it adds. */
  datatype Record =
    | Unreadable
    | Session(session: string)
    | SessionEnd
    | Input(code: string, t: real)
    | Output(status: Status, flag: string, piece: string)

  datatype Episode = Episode(code: string, outcome: string, status: Status, flag: string, t: real, session: string)

  /** Which characters are white space, and which commands are not indexed. */
  datatype Reading = Reading(space: Spaces, skipped: string -> bool)

  const MAX_OUTCOME: nat := 400

  function CodeOf(r: Record, w: Reading): string
    requires r.Input?
  {
    Strip(r.code, w.space)
  }

  predicate Keeps(r: Record, w: Reading) {
    r.Input? && CodeOf(r, w) != "" && !w.skipped(CodeOf(r, w))
  }

  // ---------------------------------------------------------------- what an episode is

  /** The first input at or after `from`; the length of the log if there is none. */
  function NextInput(log: seq<Record>, from: nat): (n: nat)
    requires from <= |log|
    ensures from <= n <= |log| && (n < |log| ==> log[n].Input?)
    ensures forall i :: from <= i < n ==> !log[i].Input?
    decreases |log| - from
  {
    if from == |log| || log[from].Input? then from else NextInput(log, from + 1)
  }

  /** The label of the last session start above position `n`, else the name of the file. */
  function SessionAt(log: seq<Record>, n: nat, stem: string): string
    requires n <= |log|
  {
    if n == 0 then stem
    else if log[n - 1].Session? then log[n - 1].session
    else SessionAt(log, n - 1, stem)
  }

  function WithPiece(outcome: string, piece: string, w: Reading): string {
    if |outcome| < MAX_OUTCOME then
      var all := Strip(outcome + "\n" + piece, w.space);
      if |all| <= MAX_OUTCOME then all else all[..MAX_OUTCOME]
    else outcome
  }

  /** An episode with one more record of its own. */
  function Told(e: Episode, r: Record, w: Reading): Episode {
    if !r.Output? then e
    else
      var worse := if Rank(r.status) > Rank(e.status) then e.(status := r.status, flag := r.flag) else e;
      worse.(outcome := WithPiece(e.outcome, r.piece, w))
  }

  function ToldAll(e: Episode, records: seq<Record>, w: Reading): Episode {
    if records == [] then e else Told(ToldAll(e, records[..|records| - 1], w), records[|records| - 1], w)
  }

  function NewEpisode(log: seq<Record>, p: nat, stem: string, w: Reading): Episode
    requires p < |log| && log[p].Input?
  {
    Episode(CodeOf(log[p], w), "", Fine, "", log[p].t, SessionAt(log, p, stem))
  }

  /** The episode of the input at `p`: made of all records up to the next input. */
  function EpisodeAt(log: seq<Record>, p: nat, stem: string, w: Reading): Episode
    requires p < |log| && log[p].Input?
  {
    ToldAll(NewEpisode(log, p, stem, w), log[p + 1..NextInput(log, p + 1)], w)
  }

  /** The positions of the inputs that are kept, in order. */
  function KeptInputs(log: seq<Record>, w: Reading): (r: seq<nat>)
    ensures forall k :: 0 <= k < |r| ==> r[k] < |log| && Keeps(log[r[k]], w)
  {
    if log == [] then []
    else
      var last := |log| - 1;
      KeptInputs(log[..last], w) + if Keeps(log[last], w) then [last] else []
  }

  predicate Increasing(ps: seq<nat>) { forall j, k :: 0 <= j < k < |ps| ==> ps[j] < ps[k] }

  /** These are all inputs that are kept, each once, in the order of the log. */
  lemma {:induction false} KeptInputsInOrder(log: seq<Record>, w: Reading)
    ensures forall p: nat :: p in KeptInputs(log, w) <==> p < |log| && Keeps(log[p], w)
    ensures Increasing(KeptInputs(log, w))
  {
    if log != [] {
      var front := log[..|log| - 1];
      KeptInputsInOrder(front, w);
      assert forall p: nat :: p < |front| ==> log[p] == front[p];
      var ps := KeptInputs(front, w);
      forall k | 0 <= k < |ps| ensures ps[k] < |front| { assert ps[k] in ps; }
      var all := KeptInputs(log, w);
      forall j, k | 0 <= j < k < |all| ensures all[j] < all[k] {
        assert all[j] == ps[j];
        if k < |ps| {
          assert all[k] == ps[k] && ps[j] < ps[k];
        } else {
          assert all[k] == |front|;
        }
      }
    }
  }

  function EpisodesAt(log: seq<Record>, ps: seq<nat>, stem: string, w: Reading): seq<Episode>
    requires forall k :: 0 <= k < |ps| ==> ps[k] < |log| && log[ps[k]].Input?
  {
    seq(|ps|, k requires 0 <= k < |ps| => EpisodeAt(log, ps[k], stem, w))
  }

  function Episodes(log: seq<Record>, stem: string, w: Reading): seq<Episode> {
    EpisodesAt(log, KeptInputs(log, w), stem, w)
  }

  // ---------------------------------------------------------------- reading the log

  /** Episodes that further records do not change. */
  ghost predicate Shut(log: seq<Record>, ps: seq<nat>, stem: string, w: Reading, closed: seq<Episode>) {
    && |closed| == |ps|
    && forall k :: 0 <= k < |ps| ==> ShutAt(log, ps[k], stem, w, closed[k])
  }

  ghost predicate ShutAt(log: seq<Record>, p: nat, stem: string, w: Reading, e: Episode) {
    p < |log| && log[p].Input? && NextInput(log, p + 1) < |log| && e == EpisodeAt(log, p, stem, w)
  }

  /** The episode that is still being told. */
  ghost predicate Live(log: seq<Record>, open: Option<nat>, stem: string, w: Reading, cur: Option<Episode>) {
    && (open.None? <==> cur.None?)
    && (open.Some? ==> LiveAt(log, open.value, stem, w, cur.value))
  }

  ghost predicate LiveAt(log: seq<Record>, p: nat, stem: string, w: Reading, e: Episode) {
    p < |log| && log[p].Input? && NextInput(log, p + 1) == |log| && e == EpisodeAt(log, p, stem, w)
  }

  function OneOrNone<T>(x: Option<T>): seq<T> { if x.None? then [] else [x.value] }

  /** What the loop knows after reading `log`: the kept inputs are those of the finished episodes and
      the one of the episode being told. */
  ghost predicate SoFar(log: seq<Record>, stem: string, w: Reading, closed: seq<Episode>, cur: Option<Episode>, session: string,
                        ps: seq<nat>, open: Option<nat>) {
    && session == SessionAt(log, |log|, stem)
    && Shut(log, ps, stem, w, closed) && Live(log, open, stem, w, cur)
    && KeptInputs(log, w) == ps + OneOrNone(open)
  }

  lemma {:induction false} SessionOfFront(log: seq<Record>, r: Record, n: nat, stem: string)
    requires n <= |log|
    ensures SessionAt(log + [r], n, stem) == SessionAt(log, n, stem)
  {
    if n > 0 { SessionOfFront(log, r, n - 1, stem); }
  }

  lemma {:induction false} NextInputOfMore(log: seq<Record>, r: Record, from: nat)
    requires from <= |log|
    ensures var n := NextInput(log, from);
            NextInput(log + [r], from) == if n < |log| || r.Input? then n else |log| + 1
  {
    var n, m := NextInput(log, from), NextInput(log + [r], from);
    if n < |log| { assert (log + [r])[n].Input?; }
    if m < |log| { assert log[m].Input?; }
    assert (log + [r])[|log|] == r;
  }

  /** An episode is not changed by records behind the next input. */
  lemma {:induction false} EpisodeOfMore(log: seq<Record>, r: Record, p: nat, stem: string, w: Reading)
    requires p < |log| && log[p].Input?
    ensures var e := EpisodeAt(log, p, stem, w);
            EpisodeAt(log + [r], p, stem, w) == if NextInput(log, p + 1) < |log| || r.Input? then e else Told(e, r, w)
  {
    SessionOfFront(log, r, p, stem);
    NextInputOfMore(log, r, p + 1);
    var n, m := NextInput(log, p + 1), NextInput(log + [r], p + 1);
    var records, more := log[p + 1..n], (log + [r])[p + 1..m];
    if n < |log| || r.Input? {
      assert more == records;
    } else {
      assert more == records + [r] && more[..|more| - 1] == records;
    }
  }

  lemma ShutStays(log: seq<Record>, r: Record, ps: seq<nat>, stem: string, w: Reading, closed: seq<Episode>)
    requires Shut(log, ps, stem, w, closed)
    ensures Shut(log + [r], ps, stem, w, closed)
  {
    forall k | 0 <= k < |ps| ensures ShutAt(log + [r], ps[k], stem, w, closed[k]) {
      assert ShutAt(log, ps[k], stem, w, closed[k]);
      EpisodeOfMore(log, r, ps[k], stem, w);
      NextInputOfMore(log, r, ps[k] + 1);
    }
  }

  /** A record told to the episode under way: an input ends it. */
  lemma LiveGoesOn(log: seq<Record>, r: Record, p: nat, stem: string, w: Reading, e: Episode)
    requires LiveAt(log, p, stem, w, e)
    ensures if r.Input? then ShutAt(log + [r], p, stem, w, e) else LiveAt(log + [r], p, stem, w, Told(e, r, w))
  {
    EpisodeOfMore(log, r, p, stem, w);
    NextInputOfMore(log, r, p + 1);
  }

  lemma {:induction false} NewInputIsLive(log: seq<Record>, r: Record, stem: string, w: Reading)
    requires r.Input?
    ensures LiveAt(log + [r], |log|, stem, w, Episode(CodeOf(r, w), "", Fine, "", r.t, SessionAt(log, |log|, stem)))
  {
    SessionOfFront(log, r, |log|, stem);
    assert NextInput(log + [r], |log| + 1) == |log| + 1;
    assert (log + [r])[|log| + 1..|log| + 1] == [];
  }

  lemma {:induction false} SessionOfMore(log: seq<Record>, r: Record, stem: string)
    ensures SessionAt(log + [r], |log| + 1, stem) == if r.Session? then r.session else SessionAt(log, |log|, stem)
  {
    SessionOfFront(log, r, |log|, stem);
  }

  /** An input closes the episode before it. */
  lemma InputTurn(log: seq<Record>, r: Record, stem: string, w: Reading, closed: seq<Episode>, cur: Option<Episode>,
                  session: string, ps: seq<nat>, open: Option<nat>)
    requires SoFar(log, stem, w, closed, cur, session, ps, open) && r.Input?
    ensures SoFar(log + [r], stem, w, closed + OneOrNone(cur),
                  if Keeps(r, w) then Some(Episode(CodeOf(r, w), "", Fine, "", r.t, session)) else None, session,
                  ps + OneOrNone(open), if Keeps(r, w) then Some(|log|) else None)
  {
    SessionOfMore(log, r, stem);
    NewInputIsLive(log, r, stem, w);
    ShutStays(log, r, ps, stem, w, closed);
    if open.Some? { LiveGoesOn(log, r, open.value, stem, w, cur.value); }
  }

  /** Any other record only tells the open episode. */
  lemma OtherTurn(log: seq<Record>, r: Record, stem: string, w: Reading, closed: seq<Episode>, cur: Option<Episode>,
                  session: string, ps: seq<nat>, open: Option<nat>)
    requires SoFar(log, stem, w, closed, cur, session, ps, open) && !r.Input?
    ensures SoFar(log + [r], stem, w, closed, if cur.None? then None else Some(Told(cur.value, r, w)),
                  if r.Session? then r.session else session, ps, open)
  {
    SessionOfMore(log, r, stem);
    ShutStays(log, r, ps, stem, w, closed);
    if open.Some? { LiveGoesOn(log, r, open.value, stem, w, cur.value); }
  }

  /** The episodes read from `log`, whatever inputs they belong to. */
  ghost predicate ReadSoFar(log: seq<Record>, stem: string, w: Reading, closed: seq<Episode>, cur: Option<Episode>, session: string) {
    exists ps, open :: SoFar(log, stem, w, closed, cur, session, ps, open)
  }

  lemma NothingRead(stem: string, w: Reading)
    ensures ReadSoFar([], stem, w, [], None, stem)
  {
    assert SoFar([], stem, w, [], None, stem, [], None);
  }

  /** Finished episodes, the one under way and the session after one more record. */
  function AfterRecord(r: Record, w: Reading, closed: seq<Episode>, cur: Option<Episode>, session: string)
    : (seq<Episode>, Option<Episode>, string)
  {
    if r.Input? then
      (closed + OneOrNone(cur), if Keeps(r, w) then Some(Episode(CodeOf(r, w), "", Fine, "", r.t, session)) else None, session)
    else
      (closed, if cur.None? then None else Some(Told(cur.value, r, w)), if r.Session? then r.session else session)
  }

  lemma RecordTurn(log: seq<Record>, r: Record, stem: string, w: Reading, closed: seq<Episode>, cur: Option<Episode>, session: string)
    requires ReadSoFar(log, stem, w, closed, cur, session)
    ensures var (closed', cur', session') := AfterRecord(r, w, closed, cur, session);
            ReadSoFar(log + [r], stem, w, closed', cur', session')
  {
    var ps, open :| SoFar(log, stem, w, closed, cur, session, ps, open);
    if r.Input? {
      InputTurn(log, r, stem, w, closed, cur, session, ps, open);
    } else {
      OtherTurn(log, r, stem, w, closed, cur, session, ps, open);
    }
  }

  /** An output told to the episode under way. */
  method Tell(e: Episode, status: Status, flag: string, piece: string, w: Reading) returns (told: Episode)
    ensures told == Told(e, Output(status, flag, piece), w)
  {
    told := e;
    if Rank(status) > Rank(told.status) { told := told.(status := status, flag := flag); }
    if |told.outcome| < MAX_OUTCOME {
      var all := Strip(told.outcome + "\n" + piece, w.space);
      told := told.(outcome := if |all| <= MAX_OUTCOME then all else all[..MAX_OUTCOME]);
    }
  }

  /** One record read: an input finishes the episode before it. */
  method ReadRecord(r: Record, w: Reading, episodes: seq<Episode>, cur: Option<Episode>, session: string)
      returns (episodes': seq<Episode>, cur': Option<Episode>, session': string)
    ensures (episodes', cur', session') == AfterRecord(r, w, episodes, cur, session)
  {
    episodes', cur', session' := episodes, cur, session;
    assert episodes + [] == episodes;
    match r {
      case Input(code, t) =>
        if cur.Some? { episodes' := episodes + [cur.value]; }
        var stripped := Strip(code, w.space);
        cur' := if stripped != "" && !w.skipped(stripped) then Some(Episode(stripped, "", Fine, "", t, session)) else None;
      case Output(status, flag, piece) =>
        if cur.Some? {
          var told := Tell(cur.value, status, flag, piece, w);
          cur' := Some(told);
        }
      case Session(name) => session' := name;
      case SessionEnd =>
      case Unreadable =>
    }
  }

  /** The episodes of a log: one per kept input, in order, each made of exactly the records between
      its input and the next one, kept or not. */
  method CommandEpisodes(log: seq<Record>, stem: string, w: Reading) returns (episodes: seq<Episode>)
    ensures episodes == Episodes(log, stem, w)
  {
    var cur, session;
    episodes, cur, session := ReadLog(log, stem, w);
    if cur.Some? { episodes := episodes + [cur.value]; }
  }

  method ReadLog(log: seq<Record>, stem: string, w: Reading) returns (episodes: seq<Episode>, cur: Option<Episode>, session: string)
    ensures ReadSoFar(log, stem, w, episodes, cur, session)
  {
    episodes, cur, session := [], None, stem;
    NothingRead(stem, w);
    for i := 0 to |log|
      invariant ReadSoFar(log[..i], stem, w, episodes, cur, session)
    {
      TakeOneMore(log, i);
      RecordTurn(log[..i], log[i], stem, w, episodes, cur, session);
      episodes, cur, session := ReadRecord(log[i], w, episodes, cur, session);
    }
    TakeAll(log);
  }

  // ---------------------------------------------------------------- what an episode tells

  /** Record `i` is the first of the records to reach the episode's status. */
  ghost predicate FirstToReach(records: seq<Record>, i: nat, status: Status) {
    && i < |records| && records[i].Output? && records[i].status == status
    && forall j :: 0 <= j < i && records[j].Output? ==> Rank(records[j].status) < Rank(status)
  }

  /** An episode's status is the worst of its outputs', and its flag is that of the first output
      that is as bad; it stays fine without a flag exactly when all outputs are fine. */
  lemma {:induction false} WorstStatusAndItsFlag(e: Episode, records: seq<Record>, w: Reading)
    requires e.status == Fine && e.flag == ""
    ensures var told := ToldAll(e, records, w);
            && (forall i :: 0 <= i < |records| && records[i].Output? ==> Rank(records[i].status) <= Rank(told.status))
            && (told.status == Fine ==> told.flag == "")
            && (told.status != Fine ==>
                  exists i: nat :: FirstToReach(records, i, told.status) && told.flag == records[i].flag)
            && told.code == e.code && told.t == e.t && told.session == e.session
  {
    if records != [] {
      var front, r := records[..|records| - 1], records[|records| - 1];
      WorstStatusAndItsFlag(e, front, w);
      var before, told := ToldAll(e, front, w), ToldAll(e, records, w);
      assert forall i :: 0 <= i < |front| ==> front[i] == records[i];
      if told.status != Fine {
        if r.Output? && Rank(r.status) > Rank(before.status) {
          assert FirstToReach(records, |front|, told.status);
        } else {
          var i: nat :| FirstToReach(front, i, before.status) && before.flag == front[i].flag;
          assert FirstToReach(records, i, told.status);
        }
      }
    }
  }

  /** Fit to be continued: stripped, or cut at the limit. */
  predicate Tidy(outcome: string, w: Reading) {
    && |outcome| <= MAX_OUTCOME
    && (outcome == "" || !w.space(outcome[0]))
    && (|outcome| == MAX_OUTCOME || Stripped(outcome, w.space))
  }

  lemma PieceKeepsOutcome(outcome: string, piece: string, w: Reading)
    requires Tidy(outcome, w)
    ensures Tidy(WithPiece(outcome, piece, w), w) && outcome <= WithPiece(outcome, piece, w)
  {
    if |outcome| < MAX_OUTCOME {
      StripStrips(outcome + "\n" + piece, w.space);
      if outcome != "" {
        assert outcome + "\n" + piece == outcome + ("\n" + piece);
        StripKeeps(outcome, "\n" + piece, w.space);
      }
    }
  }

  /** The outcome is never longer than the limit, and what it says after some of the records is the
      beginning of what it says in the end. */
  lemma {:induction false} OutcomeKeepsItsBeginning(e: Episode, records: seq<Record>, n: nat, w: Reading)
    requires Tidy(e.outcome, w) && n <= |records|
    ensures var some, all := ToldAll(e, records[..n], w).outcome, ToldAll(e, records, w).outcome;
            Tidy(all, w) && e.outcome <= all && some <= all
  {
    if n == |records| { assert records[..n] == records; }
    if records != [] {
      var front, r := records[..|records| - 1], records[|records| - 1];
      var m := if n < |front| then n else |front|;
      OutcomeKeepsItsBeginning(e, front, m, w);
      assert n < |records| ==> front[..m] == records[..n];
      if r.Output? { PieceKeepsOutcome(ToldAll(e, front, w).outcome, r.piece, w); }
    }
  }

  /** What each episode of a log tells, over exactly its own records. */
  lemma {:induction false} EpisodesTellTheWorst(log: seq<Record>, stem: string, w: Reading, k: nat)
    requires k < |KeptInputs(log, w)|
    ensures var p := KeptInputs(log, w)[k];
            var e, records := Episodes(log, stem, w)[k], log[p + 1..NextInput(log, p + 1)];
            && e.code == CodeOf(log[p], w) && e.t == log[p].t && e.session == SessionAt(log, p, stem)
            && |e.outcome| <= MAX_OUTCOME
            && (forall i :: 0 <= i < |records| && records[i].Output? ==> Rank(records[i].status) <= Rank(e.status))
            && (e.status == Fine ==> e.flag == "")
            && (e.status != Fine ==> exists i: nat :: FirstToReach(records, i, e.status) && e.flag == records[i].flag)
  {
    var p := KeptInputs(log, w)[k];
    var records := log[p + 1..NextInput(log, p + 1)];
    WorstStatusAndItsFlag(NewEpisode(log, p, stem, w), records, w);
    OutcomeKeepsItsBeginning(NewEpisode(log, p, stem, w), records, |records|, w);
  }
}
