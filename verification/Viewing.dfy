/** What an attached client has on its screen (the attach branch of
    devpipe/src/keeper.rs): the items written to it, put through a terminal, beside
    the mirror that devpipe/src/session.rs keeps of the same session. */
module Viewing {
  import opened Basics
  import opened Text
  import opened Vt
  import opened Sequences
  import opened Screens
  import opened Roundtrip
  import opened Likeness
  import opened Observed
  import opened Resume
  import M = Marker
  import A = Attach
  import H = Hearing
  import G = Gaps

  /** The mirror, once it has been fed the first `n` chunks. */
  function Mirror(w: Widths, cols: nat, rows: nat, chunks: seq<seq<byte>>, n: nat): (m: Vt)
    requires 0 < cols && 0 < rows && n <= |chunks|
    ensures m.Valid() && (m.cols, m.rows) == (cols, rows)
  {
    Run(w, Fresh(cols, rows), M.Flatten(chunks[..n]))
  }

  /** An item, put through the client's terminal. */
  function Taken(w: Widths, v: Vt, item: A.Item, chunks: seq<seq<byte>>): (r: Vt)
    requires v.Valid()
    ensures r.Valid() && (r.cols, r.rows) == (v.cols, v.rows)
  {
    match item
    case Replay(upto) => if upto <= |chunks| then Client(w, v, Mirror(w, v.cols, v.rows, chunks, upto)) else v
    case Raw(i) => if i < |chunks| then Run(w, v, chunks[i]) else v
    case Last(i) => if i < |chunks| then Run(w, v, chunks[i]) else v
    case _ => v
  }

  /** The client's terminal, which was `v`, after all it was written. */
  function View(w: Widths, v: Vt, log: seq<A.Item>, chunks: seq<seq<byte>>): (r: Vt)
    requires v.Valid()
    ensures r.Valid() && (r.cols, r.rows) == (v.cols, v.rows)
  {
    if log == [] then v else Taken(w, View(w, v, log[..|log| - 1], chunks), log[|log| - 1], chunks)
  }

  /** And what it was when the last replay came. */
  function Before(w: Widths, v: Vt, log: seq<A.Item>, chunks: seq<seq<byte>>): (r: Vt)
    requires v.Valid()
    ensures r.Valid() && (r.cols, r.rows) == (v.cols, v.rows)
  {
    if log == [] then v
    else if log[|log| - 1].Replay? then View(w, v, log[..|log| - 1], chunks)
    else Before(w, v, log[..|log| - 1], chunks)
  }

  /** And what that replay made of it. */
  function Repainted(w: Widths, v: Vt, log: seq<A.Item>, chunks: seq<seq<byte>>): (r: Vt)
    requires v.Valid() && A.Painted(log) <= |chunks|
    ensures r.Valid() && (r.cols, r.rows) == (v.cols, v.rows)
  {
    Client(w, Before(w, v, log, chunks), Mirror(w, v.cols, v.rows, chunks, A.Painted(log)))
  }

  /** The chunks forwarded since the last replay. */
  function Since(log: seq<A.Item>): nat {
    if log == [] || log[|log| - 1].Replay? then 0
    else Since(log[..|log| - 1]) + (if A.IsChunk(log[|log| - 1]) then 1 else 0)
  }

  lemma Snoc(w: Widths, v: Vt, log: seq<A.Item>, item: A.Item, chunks: seq<seq<byte>>)
    requires v.Valid()
    ensures View(w, v, log + [item], chunks) == Taken(w, View(w, v, log, chunks), item, chunks)
    ensures Before(w, v, log + [item], chunks)
         == if item.Replay? then View(w, v, log, chunks) else Before(w, v, log, chunks)
  {
    hide Taken;
    assert (log + [item])[..|log|] == log;
  }

  lemma SinceSnoc(log: seq<A.Item>, item: A.Item)
    ensures Since(log + [item]) == if item.Replay? then 0 else Since(log) + (if A.IsChunk(item) then 1 else 0)
    ensures A.Painted(log + [item]) == if item.Replay? then item.upto else A.Painted(log)
  {
    assert (log + [item])[..|log|] == log;
  }

  predicate Still(items: seq<A.Item>) { forall k :: 0 <= k < |items| ==> !items[k].Replay? && !A.IsChunk(items[k]) }

  /** What is neither a replay nor a chunk is nothing to a terminal. */
  lemma {:induction false} Quiet(w: Widths, v: Vt, log: seq<A.Item>, more: seq<A.Item>, chunks: seq<seq<byte>>)
    requires v.Valid() && Still(more)
    ensures View(w, v, log + more, chunks) == View(w, v, log, chunks)
    ensures Before(w, v, log + more, chunks) == Before(w, v, log, chunks)
    decreases |more|
  {
    hide View, Before;
    if more == [] {
      assert log + more == log;
    } else {
      var init, item := more[..|more| - 1], more[|more| - 1];
      assert log + more == log + init + [item];
      Quiet(w, v, log, init, chunks);
      Snoc(w, v, log + init, item, chunks);
    }
  }

  lemma {:induction false} SinceQuiet(log: seq<A.Item>, more: seq<A.Item>)
    requires Still(more)
    ensures Since(log + more) == Since(log) && A.Painted(log + more) == A.Painted(log)
    decreases |more|
  {
    hide Since, A.Painted;
    if more == [] {
      assert log + more == log;
    } else {
      var init, item := more[..|more| - 1], more[|more| - 1];
      assert log + more == log + init + [item];
      SinceQuiet(log, init);
      SinceSnoc(log + init, item);
    }
  }

  /** Everything in a log is of the first `n` chunks. */
  predicate Within(log: seq<A.Item>, n: nat) {
    forall p :: 0 <= p < |log| ==>
      (log[p].Replay? ==> log[p].upto <= n) && (A.IsChunk(log[p]) ==> log[p].i < n)
  }

  /** More chunks change nothing of what was seen. */
  lemma {:induction false} Stable(w: Widths, v: Vt, log: seq<A.Item>, chunks: seq<seq<byte>>, more: seq<seq<byte>>)
    requires v.Valid() && Within(log, |chunks|) && chunks <= more
    ensures View(w, v, log, more) == View(w, v, log, chunks) && Before(w, v, log, more) == Before(w, v, log, chunks)
    decreases |log|
  {
    if log != [] {
      var init, item := log[..|log| - 1], log[|log| - 1];
      assert forall p :: 0 <= p < |init| ==> init[p] == log[p];
      assert Within([item], |chunks|) by { assert [item][0] == log[|log| - 1]; }
      Stable(w, v, init, chunks, more);
      TakenStable(w, View(w, v, init, chunks), item, chunks, more);
      hide Taken, Within;
    }
  }

  lemma TakenStable(w: Widths, v: Vt, item: A.Item, chunks: seq<seq<byte>>, more: seq<seq<byte>>)
    requires v.Valid() && Within([item], |chunks|) && chunks <= more
    ensures Taken(w, v, item, more) == Taken(w, v, item, chunks)
  {
    assert [item][0] == item;
    if item.Replay? { assert more[..item.upto] == chunks[..item.upto]; }
    hide Run, Client, M.Flatten;
  }

  // ------------------------------------------------------------ in every run

  /** The client shows what the last replay made of it, and then each chunk from
      the cursor as it was at that replay: which was no further on than what the
      replay painted. */
  ghost predicate Sees(w: Widths, v: Vt, log: seq<A.Item>, chunks: seq<seq<byte>>, next: nat)
    requires v.Valid()
  {
    && Since(log) <= next <= |chunks| && next - Since(log) <= A.Painted(log) <= |chunks|
    && View(w, v, log, chunks)
       == Run(w, Repainted(w, v, log, chunks), M.Flatten(chunks[next - Since(log)..next]))
  }

  lemma SeesNext(w: Widths, v: Vt, log: seq<A.Item>, item: A.Item, chunks: seq<seq<byte>>, next: nat)
    requires v.Valid() && Sees(w, v, log, chunks, next) && next < |chunks| && item in {A.Raw(next), A.Last(next)}
    ensures Sees(w, v, log + [item], chunks, next + 1)
  {
    hide View, Before, Since, A.Painted, Run, Client, Mirror, M.Flatten;
    var c, start := next - Since(log), Repainted(w, v, log, chunks);
    Snoc(w, v, log, item, chunks);
    SinceSnoc(log, item);
    FlattenNext(chunks, c, next);
    RunConcat(w, start, M.Flatten(chunks[c..next]), chunks[next]);
  }

  lemma FlattenNext(chunks: seq<seq<byte>>, lo: nat, next: nat)
    requires lo <= next < |chunks|
    ensures M.Flatten(chunks[lo..next + 1]) == M.Flatten(chunks[lo..next]) + chunks[next]
  {
    assert chunks[lo..next + 1] == chunks[lo..next] + [chunks[next]];
    hide M.Flatten;
    H.FlattenSnoc(chunks[lo..next], chunks[next]);
  }

  lemma SeesReplay(w: Widths, v: Vt, log: seq<A.Item>, chunks: seq<seq<byte>>, next: nat)
    requires v.Valid() && next <= |chunks|
    ensures Sees(w, v, log + [A.Replay(|chunks|)], chunks, next)
  {
    hide View, Before, Since, A.Painted, Client, Mirror, Run, M.Flatten;
    Snoc(w, v, log, A.Replay(|chunks|), chunks);
    SinceSnoc(log, A.Replay(|chunks|));
    NothingYet(w, View(w, v, log + [A.Replay(|chunks|)], chunks), chunks, next);
  }

  lemma SeesQuiet(w: Widths, v: Vt, log: seq<A.Item>, more: seq<A.Item>, chunks: seq<seq<byte>>, next: nat)
    requires v.Valid() && Sees(w, v, log, chunks, next)
    requires Still(more)
    ensures Sees(w, v, log + more, chunks, next)
  {
    hide View, Before, Since, A.Painted, Run, Client, Mirror, M.Flatten;
    Quiet(w, v, log, more, chunks);
    SinceQuiet(log, more);
  }

  lemma SeesMore(w: Widths, v: Vt, log: seq<A.Item>, chunks: seq<seq<byte>>, chunk: seq<byte>, next: nat)
    requires v.Valid() && Sees(w, v, log, chunks, next) && Within(log, |chunks|)
    ensures Sees(w, v, log, chunks + [chunk], next)
  {
    hide View, Before, Since, A.Painted, Run, Client, M.Flatten, Within;
    var more := chunks + [chunk];
    Stable(w, v, log, chunks, more);
    assert more[..A.Painted(log)] == chunks[..A.Painted(log)];
    assert more[next - Since(log)..next] == chunks[next - Since(log)..next];
  }

  /** A client attached sees the session so; and a replay after the first has
      painted at least a ringful past the cursor. */
  ghost predicate Viewed(w: Widths, v: Vt, s: A.State)
    requires v.Valid()
  {
    && Within(s.log, |s.chunks|)
    && (A.Attached(s) ==> Sees(w, v, s.log, s.chunks, s.next) && FarPainted(s))
  }

  predicate FarPainted(s: A.State) {
    H.Replays(s.log) > 1 ==> s.next + A.BACKLOG <= Since(s.log) + A.Painted(s.log)
  }

  lemma ViewedRead(w: Widths, v: Vt, s: A.State, chunk: seq<byte>)
    requires v.Valid() && A.Ring(s) && Viewed(w, v, s) && A.Can(s, A.Read(chunk))
    ensures Viewed(w, v, A.Do(s, A.Read(chunk)))
  {
    hide A.Ring, A.Painted, Sees, Since, H.Replays;
    if A.Attached(s) { SeesMore(w, v, s.log, s.chunks, chunk, s.next); }
  }

  lemma WithinAdds(log: seq<A.Item>, more: seq<A.Item>, n: nat)
    requires Within(log, n) && Within(more, n)
    ensures Within(log + more, n)
  {}

  lemma ViewedReplay(w: Widths, v: Vt, s: A.State, a: A.Step)
    requires v.Valid() && A.Ring(s) && G.FarBehind(s) && Viewed(w, v, s) && A.Can(s, a) && (a.FirstReplay? || a.Resync?)
    ensures Viewed(w, v, A.Do(s, a))
  {
    var n := |s.chunks|;
    assert s.next <= n && (a.FirstReplay? ==> H.Replays(s.log) == 0) && (a.Resync? ==> s.next + A.BACKLOG <= n);
    hide A.Ring, G.FarBehind, Sees, Since, A.Painted, H.Replays;
    WithinAdds(s.log, [A.Replay(n)], n);
    SeesReplay(w, v, s.log, s.chunks, s.next);
    SinceSnoc(s.log, A.Replay(n));
    H.CountsOne(s.log, A.Replay(n));
  }

  lemma ViewedNext(w: Widths, v: Vt, s: A.State, item: A.Item, more: seq<A.Item>)
    requires v.Valid() && Viewed(w, v, s) && A.Attached(s) && s.next < |s.chunks|
    requires item in {A.Raw(s.next), A.Last(s.next)} && forall k :: 0 <= k < |more| ==> more[k].Heard?
    ensures var log := s.log + [item] + more;
            && Within(log, |s.chunks|) && Sees(w, v, log, s.chunks, s.next + 1)
            && FarPainted(s.(log := log, next := s.next + 1))
  {
    hide Sees, Since, A.Painted, H.Replays;
    WithinAdds(s.log, [item], |s.chunks|);
    WithinAdds(s.log + [item], more, |s.chunks|);
    SinceSnoc(s.log, item);
    SinceQuiet(s.log + [item], more);
    SeesNext(w, v, s.log, item, s.chunks, s.next);
    SeesQuiet(w, v, s.log + [item], more, s.chunks, s.next + 1);
    H.CountsOne(s.log, item);
    H.CountsAppend(s.log + [item], more);
  }

  lemma ViewedRecv(w: Widths, v: Vt, s: A.State)
    requires v.Valid() && A.Ring(s) && Viewed(w, v, s) && A.Can(s, A.Recv) && !A.Lagged(s)
    ensures Viewed(w, v, A.Do(s, A.Recv))
  {
    RecvIs(s);
    var more := A.HeardAll(M.Scan(s.scan, s.chunks[s.next]).1);
    hide *;
    ViewedNext(w, v, s, A.Raw(s.next), more);
    ViewedAs(w, v, A.Do(s, A.Recv), s.(log := s.log + [A.Raw(s.next)] + more, next := s.next + 1));
  }

  lemma RecvIs(s: A.State)
    requires A.Ring(s) && A.Can(s, A.Recv) && !A.Lagged(s)
    ensures A.Attached(s) && s.next < |s.chunks| && A.Attached(A.Do(s, A.Recv))
    ensures var t := A.Do(s, A.Recv); var more := A.HeardAll(M.Scan(s.scan, s.chunks[s.next]).1);
            (t.chunks, t.log, t.next) == (s.chunks, s.log + [A.Raw(s.next)] + more, s.next + 1)
            && forall k :: 0 <= k < |more| ==> more[k].Heard?
  {
    hide A.Painted, M.Scan;
    var more := A.HeardAll(M.Scan(s.scan, s.chunks[s.next]).1);
    assert s.log + ([A.Raw(s.next)] + more) == s.log + [A.Raw(s.next)] + more;
  }

  lemma ViewedAs(w: Widths, v: Vt, s: A.State, t: A.State)
    requires v.Valid() && (s.chunks, s.log, s.next) == (t.chunks, t.log, t.next)
    requires Within(t.log, |t.chunks|) && Sees(w, v, t.log, t.chunks, t.next) && FarPainted(t)
    ensures Viewed(w, v, s)
  {
    hide Sees, Within, Since, A.Painted, H.Replays;
  }

  lemma ViewedEnd(w: Widths, v: Vt, s: A.State, a: A.Step)
    requires v.Valid() && A.Ring(s) && Viewed(w, v, s) && A.Can(s, a) && (a.Drain? || a.Finish?)
    ensures Viewed(w, v, A.Do(s, a))
  {
    hide A.Painted, Sees, Since, H.Replays;
    if a.Drain? {
      ViewedNext(w, v, s, A.Last(s.next), []);
      assert s.log + [A.Last(s.next)] + [] == s.log + [A.Last(s.next)];
    } else {
      var more := A.Added(s, a);
      WithinAdds(s.log, more, |s.chunks|);
      SinceQuiet(s.log, more);
      SeesQuiet(w, v, s.log, more, s.chunks, s.next);
      H.CountsAppend(s.log, more);
    }
  }

  lemma ViewedKept(w: Widths, v: Vt, s: A.State, a: A.Step)
    requires v.Valid() && A.Ring(s) && G.FarBehind(s) && Viewed(w, v, s) && A.Can(s, a)
    ensures Viewed(w, v, A.Do(s, a))
  {
    if a.Read? {
      hide *;
      ViewedRead(w, v, s, a.chunk);
    } else if a.Recv? && !A.Lagged(s) {
      hide *;
      ViewedRecv(w, v, s);
    } else if a.FirstReplay? || a.Resync? {
      hide *;
      ViewedReplay(w, v, s, a);
    } else if a.Drain? || a.Finish? {
      hide *;
      ViewedEnd(w, v, s, a);
    } else {
      ViewedSame(w, v, s, a);
    }
  }

  lemma ViewedSame(w: Widths, v: Vt, s: A.State, a: A.Step)
    requires v.Valid() && Viewed(w, v, s) && A.Can(s, a) && !a.Read? && (!a.Recv? || A.Lagged(s))
    requires !a.FirstReplay? && !a.Resync? && !a.Drain? && !a.Finish?
    ensures Viewed(w, v, A.Do(s, a))
  {
    hide Sees, Within, Since, A.Painted, H.Replays, M.Scan, A.HeardAll;
  }

  lemma {:induction false} RunViews(w: Widths, v: Vt, s: A.State, run: seq<A.Step>)
    requires v.Valid() && A.Ring(s) && G.FarBehind(s) && Viewed(w, v, s) && A.Runs(s, run)
    ensures Viewed(w, v, A.After(s, run))
    decreases |run|
  {
    if run != [] {
      var t := A.Do(s, run[0]);
      hide A.Ring, G.FarBehind, Viewed, A.Can, A.Do;
      A.RingKept(s, run[0]);
      FarStep(s, run[0]);
      ViewedKept(w, v, s, run[0]);
      RunViews(w, v, t, run[1..]);
    }
  }

  lemma FarStep(s: A.State, a: A.Step)
    requires G.FarBehind(s) && A.Can(s, a)
    ensures G.FarBehind(A.Do(s, a))
  {
    hide M.Scan, A.HeardAll;
  }

  lemma StartViewed(w: Widths, v: Vt)
    requires v.Valid()
    ensures A.Ring(A.START) && G.FarBehind(A.START) && Viewed(w, v, A.START)
  {
    assert A.Painted([]) == 0;
    hide Sees;
  }

  lemma RunSees(w: Widths, v: Vt, run: seq<A.Step>)
    requires v.Valid() && A.Runs(A.START, run) && A.Attached(A.After(A.START, run))
    ensures var s := A.After(A.START, run); Sees(w, v, s.log, s.chunks, s.next) && FarPainted(s)
  {
    hide A.Runs, A.After, Sees, FarPainted, A.Ring, G.FarBehind, Within;
    StartViewed(w, v);
    RunViews(w, v, A.START, run);
  }

  /** In every run, from whatever the client's terminal was: what it shows is what
      the last replay made of it, and then each chunk from where the cursor stood
      at that replay. The replay had painted all before that, and possibly more,
      which is then printed a second time: a ringful at least whenever the client
      had fallen behind. */
  lemma SeesTheSession(w: Widths, v: Vt, run: seq<A.Step>)
    requires v.Valid() && A.Runs(A.START, run) && A.Attached(A.After(A.START, run))
    ensures var s := A.After(A.START, run);
            var p, k := A.Painted(s.log), Since(s.log);
            && k <= s.next <= |s.chunks| && s.next - k <= p <= |s.chunks|
            && View(w, v, s.log, s.chunks)
               == Run(w, Repainted(w, v, s.log, s.chunks), M.Flatten(s.chunks[s.next - k..s.next]))
            && (H.Replays(s.log) > 1 ==> s.next - k + A.BACKLOG <= p)
  {
    hide A.Runs, A.After, View, Repainted, Since, A.Painted, H.Replays, Run, M.Flatten;
    RunSees(w, v, run);
  }

  // ----------------------------------------------------- when that is right

  lemma IndistinctBack(w: Widths, a: Vt, b: Vt)
    requires a.Valid() && b.Valid() && Indistinct(w, a, b)
    ensures Indistinct(w, b, a)
  {
    hide Run;
    forall bytes: seq<byte> ensures Shows(Run(w, b, bytes), Run(w, a, bytes)) {
      assert Shows(Run(w, a, bytes), Run(w, b, bytes));
    }
  }

  lemma IndistinctOn(w: Widths, a: Vt, b: Vt, c: Vt)
    requires a.Valid() && b.Valid() && c.Valid() && Indistinct(w, a, b) && Indistinct(w, b, c)
    ensures Indistinct(w, a, c)
  {
    forall bytes: seq<byte> ensures Shows(Run(w, a, bytes), Run(w, c, bytes)) {
      ShowsOn(Run(w, a, bytes), Run(w, b, bytes), Run(w, c, bytes));
    }
  }

  lemma ShowsOn(a: Vt, b: Vt, c: Vt)
    requires Shows(a, b) && Shows(b, c)
    ensures Shows(a, c)
  {
    hide Look;
  }

  /** What is told apart from one of two that cannot be told apart, is from the other. */
  lemma IndistinctEither(w: Widths, a: Vt, b: Vt, c: Vt)
    requires a.Valid() && b.Valid() && c.Valid() && Indistinct(w, b, c)
    ensures Indistinct(w, a, b) <==> Indistinct(w, a, c)
  {
    hide Indistinct;
    IndistinctBack(w, b, c);
    if Indistinct(w, a, b) { IndistinctOn(w, a, b, c); }
    if Indistinct(w, a, c) { IndistinctOn(w, a, c, b); }
  }

  lemma MirrorKept(w: Widths, cols: nat, rows: nat, chunks: seq<seq<byte>>, n: nat)
    requires w(' ') == One && 0 < cols && 0 < rows && n <= |chunks|
    ensures Kept(w, Mirror(w, cols, rows, chunks, n))
  {
    hide Kept, Run, M.Flatten;
    FreshKept(w, cols, rows);
    RunKeeps(w, Fresh(cols, rows), M.Flatten(chunks[..n]));
  }

  lemma MirrorGoesOn(w: Widths, cols: nat, rows: nat, chunks: seq<seq<byte>>, n: nat, upto: nat)
    requires 0 < cols && 0 < rows && n <= upto <= |chunks|
    ensures Run(w, Mirror(w, cols, rows, chunks, n), M.Flatten(chunks[n..upto])) == Mirror(w, cols, rows, chunks, upto)
  {
    hide Run, M.Flatten;
    assert chunks[0..n] == chunks[..n] && chunks[0..upto] == chunks[..upto];
    G.FlattenSplit(chunks, 0, n, upto);
    RunConcat(w, Fresh(cols, rows), M.Flatten(chunks[..n]), M.Flatten(chunks[n..upto]));
  }

  lemma HasRoom(v: Vt)
    requires v.Valid()
    ensures 0 < v.cols && 0 < v.rows
  {}

  lemma RepaintedIs(w: Widths, v: Vt, log: seq<A.Item>, chunks: seq<seq<byte>>)
    requires v.Valid() && A.Painted(log) <= |chunks|
    ensures 0 < v.cols && 0 < v.rows
    ensures var m := Mirror(w, v.cols, v.rows, chunks, A.Painted(log));
            Repainted(w, v, log, chunks) == Client(w, Before(w, v, log, chunks), m)
  {}

  lemma SeesIs(w: Widths, v: Vt, log: seq<A.Item>, chunks: seq<seq<byte>>, next: nat)
    requires v.Valid() && Sees(w, v, log, chunks, next)
    ensures 0 < v.cols && 0 < v.rows && Since(log) <= next <= |chunks| && A.Painted(log) <= |chunks|
    ensures var m := Mirror(w, v.cols, v.rows, chunks, A.Painted(log));
            View(w, v, log, chunks)
            == Run(w, Client(w, Before(w, v, log, chunks), m), M.Flatten(chunks[next - Since(log)..next]))
  {
    hide View, Before, Since, A.Painted, Mirror, Client, Run, M.Flatten;
    RepaintedIs(w, v, log, chunks);
  }

  // ---------------------------------------------- as a comparison of states

  /** In every run, whatever the last replay failed to carry: once the client and the
      session's own mirror are equally far into a sequence, or both in none, no bytes
      tell them apart exactly when their states are alike. Before that, they must be
      alike but for the sequence. */
  lemma FollowsIffAlike(w: Widths, v: Vt, run: seq<A.Step>, mark: char)
    requires w(' ') == One && HasLetters(w, mark) && v.Valid()
    requires A.Runs(A.START, run) && A.Attached(A.After(A.START, run))
    ensures var s := A.After(A.START, run);
            && s.next <= |s.chunks|
            && var mirror, view := Mirror(w, v.cols, v.rows, s.chunks, s.next), View(w, v, s.log, s.chunks);
            && (Indistinct(w, mirror, view) ==> Alike(mirror.(parse := Ground), view.(parse := Ground)))
            && (mirror.parse == view.parse ==> (Indistinct(w, mirror, view) <==> Alike(mirror, view)))
  {
    hide *;
    HasRoom(v);
    RunSees(w, v, run);
    var s := A.After(A.START, run);
    LogAlike(w, v, s.log, s.chunks, s.next, mark);
  }

  lemma LogAlike(w: Widths, v: Vt, log: seq<A.Item>, chunks: seq<seq<byte>>, next: nat, mark: char)
    requires w(' ') == One && HasLetters(w, mark) && v.Valid() && Sees(w, v, log, chunks, next)
    ensures next <= |chunks| && 0 < v.cols && 0 < v.rows
    ensures var mirror, view := Mirror(w, v.cols, v.rows, chunks, next), View(w, v, log, chunks);
            && (Indistinct(w, mirror, view) ==> Alike(mirror.(parse := Ground), view.(parse := Ground)))
            && (mirror.parse == view.parse ==> (Indistinct(w, mirror, view) <==> Alike(mirror, view)))
  {
    hide *;
    SeesIs(w, v, log, chunks, next);
    MirrorEdged(w, v.cols, v.rows, chunks, next);
    ViewEdged(w, Before(w, v, log, chunks), chunks, A.Painted(log), M.Flatten(chunks[next - Since(log)..next]));
    EitherAlike(w, Mirror(w, v.cols, v.rows, chunks, next), View(w, v, log, chunks), mark);
  }

  lemma EitherAlike(w: Widths, a: Vt, b: Vt, mark: char)
    requires HasLetters(w, mark) && Edged(a) && Edged(b) && (a.cols, a.rows) == (b.cols, b.rows)
    ensures Indistinct(w, a, b) ==> Alike(a.(parse := Ground), b.(parse := Ground))
    ensures a.parse == b.parse ==> (Indistinct(w, a, b) <==> Alike(a, b))
  {
    hide Indistinct, Alike;
    if Indistinct(w, a, b) { IndistinctIsAlike(w, a, b, mark); }
    if a.parse == b.parse { IndistinctIffAlike(w, a, b, mark); }
  }

  lemma MirrorEdged(w: Widths, cols: nat, rows: nat, chunks: seq<seq<byte>>, n: nat)
    requires w(' ') == One && 0 < cols && 0 < rows && n <= |chunks|
    ensures Edged(Mirror(w, cols, rows, chunks, n))
  {
    hide Mirror, GridOk;
    MirrorKept(w, cols, rows, chunks, n);
  }

  lemma ViewEdged(w: Widths, b: Vt, chunks: seq<seq<byte>>, p: nat, bytes: seq<byte>)
    requires w(' ') == One && b.Valid() && p <= |chunks| && 0 < b.cols && 0 < b.rows
    ensures Edged(Run(w, Client(w, b, Mirror(w, b.cols, b.rows, chunks, p)), bytes))
  {
    hide Mirror, Client, Run, Kept;
    var m := Mirror(w, b.cols, b.rows, chunks, p);
    MirrorKept(w, b.cols, b.rows, chunks, p);
    ClientState(w, b, m);
    RunEdged(w, Client(w, b, m), bytes);
  }

  /** Where a replay carries all there is, the client cannot be told from the
      session's own mirror exactly when printing twice what the replay had painted
      already, and the rest once, cannot be told from printing it all once: which it
      cannot when the two leave like states, and only then if they leave off at the
      same point of a sequence; and never when the replay was taken at the cursor. */
  lemma FollowsIffRepeatsShowNot(w: Widths, v: Vt, run: seq<A.Step>, mark: char)
    requires w(' ') == One && v.Valid() && A.Runs(A.START, run) && A.Attached(A.After(A.START, run))
    requires var s := A.After(A.START, run);
             A.Painted(s.log) <= |s.chunks|
             && var m := Mirror(w, v.cols, v.rows, s.chunks, A.Painted(s.log));
             Carries(Before(w, v, s.log, s.chunks), m) && Settles(w, m)
    ensures var s := A.After(A.START, run);
            var p, k := A.Painted(s.log), Since(s.log);
            && k <= s.next <= |s.chunks|
            && var mirror, view := Mirror(w, v.cols, v.rows, s.chunks, s.next), View(w, v, s.log, s.chunks);
               var m, bytes := Mirror(w, v.cols, v.rows, s.chunks, p), M.Flatten(s.chunks[s.next - k..s.next]);
               var twice := Run(w, m, bytes);
            && (Indistinct(w, mirror, view) <==> Indistinct(w, mirror, twice))
            && (HasLetters(w, mark) && mirror.parse == twice.parse ==>
                  (Indistinct(w, mirror, view) <==> Alike(mirror, twice)))
            && (s.next - k == p ==> Indistinct(w, mirror, view))
  {
    hide *;
    HasRoom(v);
    RunSees(w, v, run);
    var s := A.After(A.START, run);
    LogRepeats(w, v, s.log, s.chunks, s.next, mark);
  }

  lemma LogRepeats(w: Widths, v: Vt, log: seq<A.Item>, chunks: seq<seq<byte>>, next: nat, mark: char)
    requires w(' ') == One && v.Valid() && 0 < v.cols && 0 < v.rows && Sees(w, v, log, chunks, next)
    requires A.Painted(log) <= |chunks|
    requires var m := Mirror(w, v.cols, v.rows, chunks, A.Painted(log));
             Carries(Before(w, v, log, chunks), m) && Settles(w, m)
    ensures var p, k := A.Painted(log), Since(log);
            && k <= next <= |chunks|
            && var mirror, view := Mirror(w, v.cols, v.rows, chunks, next), View(w, v, log, chunks);
               var m, bytes := Mirror(w, v.cols, v.rows, chunks, p), M.Flatten(chunks[next - k..next]);
               var twice := Run(w, m, bytes);
            && (Indistinct(w, mirror, view) <==> Indistinct(w, mirror, twice))
            && (HasLetters(w, mark) && mirror.parse == twice.parse ==>
                  (Indistinct(w, mirror, view) <==> Alike(mirror, twice)))
            && (next - k == p ==> Indistinct(w, mirror, view))
  {
    hide *;
    SeesIs(w, v, log, chunks, next);
    RepeatsShow(w, v.cols, v.rows, Before(w, v, log, chunks), chunks, A.Painted(log), next - Since(log), next, mark);
  }

  lemma RepeatsShow(w: Widths, cols: nat, rows: nat, b: Vt, chunks: seq<seq<byte>>,
                    p: nat, c: nat, next: nat, mark: char)
    requires w(' ') == One && b.Valid() && (b.cols, b.rows) == (cols, rows) && c <= next <= |chunks| && p <= |chunks|
    requires 0 < cols && 0 < rows
    requires var m := Mirror(w, cols, rows, chunks, p); Carries(b, m) && Settles(w, m)
    ensures var mirror, m := Mirror(w, cols, rows, chunks, next), Mirror(w, cols, rows, chunks, p);
            var view := Run(w, Client(w, b, m), M.Flatten(chunks[c..next]));
            var twice := Run(w, m, M.Flatten(chunks[c..next]));
            && (Indistinct(w, mirror, view) <==> Indistinct(w, mirror, twice))
            && (HasLetters(w, mark) && mirror.parse == twice.parse ==>
                  (Indistinct(w, mirror, view) <==> Alike(mirror, twice)))
            && (c == p ==> Indistinct(w, mirror, view))
  {
    var mirror, m := Mirror(w, cols, rows, chunks, next), Mirror(w, cols, rows, chunks, p);
    var bytes := M.Flatten(chunks[c..next]);
    hide Kept, Carries, Settles, Indistinct, Alike, Run, Client, Mirror, M.Flatten;
    MirrorKept(w, cols, rows, chunks, p);
    FollowsTheChild(w, b, m);
    IndistinctAfter(w, m, Client(w, b, m), bytes);
    IndistinctEither(w, mirror, Run(w, m, bytes), Run(w, Client(w, b, m), bytes));
    if HasLetters(w, mark) && mirror.parse == Run(w, m, bytes).parse {
      MirrorEdged(w, cols, rows, chunks, p);
      MirrorEdged(w, cols, rows, chunks, next);
      RunEdged(w, m, bytes);
      IndistinctIffAlike(w, mirror, Run(w, m, bytes), mark);
    }
    if c == p {
      MirrorGoesOn(w, cols, rows, chunks, p, next);
      assert Indistinct(w, mirror, Run(w, Client(w, b, m), bytes));
    }
  }

  /** Just replayed, at the cursor, a client can go on exactly when the replay
      carried all there is. */
  lemma ResumesIffCarried(w: Widths, v: Vt, run: seq<A.Step>, mark: char)
    requires w(' ') == One && HasLetters(w, mark) && v.Valid()
    requires A.Runs(A.START, run) && A.Attached(A.After(A.START, run))
    requires var s := A.After(A.START, run); Since(s.log) == 0 && A.Painted(s.log) == s.next
    ensures var s := A.After(A.START, run);
            && s.next <= |s.chunks|
            && var m, b := Mirror(w, v.cols, v.rows, s.chunks, s.next), Before(w, v, s.log, s.chunks);
               Indistinct(w, m, View(w, v, s.log, s.chunks)) <==> Carries(b, m) && Settles(w, m)
  {
    hide *;
    HasRoom(v);
    SeesTheSession(w, v, run);
    var s := A.After(A.START, run);
    var m, b := Mirror(w, v.cols, v.rows, s.chunks, s.next), Before(w, v, s.log, s.chunks);
    RepaintedIs(w, v, s.log, s.chunks);
    NothingYet(w, Client(w, b, m), s.chunks, s.next);
    MirrorKept(w, v.cols, v.rows, s.chunks, s.next);
    FollowsIffResumable(w, b, m, mark);
  }

  lemma NothingYet(w: Widths, v: Vt, chunks: seq<seq<byte>>, next: nat)
    requires v.Valid() && next <= |chunks|
    ensures Run(w, v, M.Flatten(chunks[next..next])) == v
  {
    assert chunks[next..next] == [] && M.Flatten([]) == [];
  }

  // -------------------------------------------------- a repaint that is seen

  const X: seq<byte> := ['x' as int]

  /** A session that has printed a letter on a fresh screen, and a client that has
      been replayed that and is sent the letter again. */
  lemma TwiceShows(w: Widths, b: Vt, m: Vt)
    requires w('x') == One && w(' ') == One && b.Valid() && b.cols > 1
    requires m == Run(w, Fresh(b.cols, b.rows), X)
    ensures !SameScreen(Run(w, Client(w, b, m), X).grid, m.grid)
  {
    var c := Client(w, b, m);
    FreshKept(w, b.cols, b.rows);
    RunKeeps(w, Fresh(b.cols, b.rows), X);
    ClientState(w, b, m);
    hide Client, Run, Kept, SameScreen;
    RunLetter(w, Fresh(b.cols, b.rows), 'x');
    RunLetter(w, c, 'x');
    hide Fresh;
    LetterFirst(b.cols, b.rows);
    LetterNext(c);
    SecondShows(PrintNarrow(c, 'x').grid, m.grid);
  }

  lemma LetterFirst(cols: nat, rows: nat)
    requires 1 < cols && 0 < rows
    ensures var m := PrintNarrow(Fresh(cols, rows), 'x');
            && (m.row, m.col) == (0, 1) && m.grid[0][1] == BlankCell(PLAIN)
  {}

  lemma LetterNext(c: Vt)
    requires c.Valid() && !c.wrap && (c.row, c.col) == (0, 1)
    ensures PrintNarrow(c, 'x').grid[0][1].ch == 'x' && !PrintNarrow(c, 'x').grid[0][1].spacer
  {}

  lemma SecondShows(a: seq<Row>, b: seq<Row>)
    requires |a| > 0 && |b| > 0 && |a[0]| > 1 && |b[0]| > 1
    requires a[0][1].ch == 'x' && !a[0][1].spacer && b[0][1] == BlankCell(PLAIN)
    ensures !SameScreen(a, b)
  {
    assert Look(a[0][1]) != Look(b[0][1]);
  }

  /** Bells, and then the letter. */
  predicate BellsThenX(chunks: seq<seq<byte>>) {
    chunks != [] && chunks[|chunks| - 1] == X && forall k :: 0 <= k < |chunks| - 1 ==> chunks[k] == [M.BEL]
  }

  lemma {:induction false} RunBells(w: Widths, v: Vt, chunks: seq<seq<byte>>)
    requires v.Valid() && v.parse == Ground && BellsThenX(chunks)
    ensures Run(w, v, M.Flatten(chunks)) == Run(w, v, X)
    decreases |chunks|
  {
    hide Run;
    if |chunks| == 1 {
      assert chunks[1..] == [] && X + [] == X;
    } else {
      assert forall k :: 0 <= k < |chunks| - 1 ==> chunks[1..][k] == chunks[k + 1];
      BellIsNothing(w, v);
      RunConcat(w, v, [M.BEL], M.Flatten(chunks[1..]));
      RunBells(w, v, chunks[1..]);
    }
  }

  lemma BellIsNothing(w: Widths, v: Vt)
    requires v.Valid() && v.parse == Ground
    ensures Run(w, v, [M.BEL]) == v
  {
    RunOne(w, v, M.BEL);
    hide Run;
    assert v.(parse := Ground) == v && IsControl(M.BEL as char);
  }

  /** Whoever has been sent again the letter that had been painted shows it twice. */
  lemma TwiceIsSeen(w: Widths, b: Vt, chunks: seq<seq<byte>>, c: nat)
    requires w('x') == One && w(' ') == One && b.Valid() && b.cols > 1 && BellsThenX(chunks) && c < |chunks|
    ensures var m := Mirror(w, b.cols, b.rows, chunks, |chunks|);
            !Shows(m, Run(w, Client(w, b, m), M.Flatten(chunks[c..|chunks|])))
  {
    var m := Mirror(w, b.cols, b.rows, chunks, |chunks|);
    MirrorIsX(w, b.cols, b.rows, chunks);
    var again := chunks[c..|chunks|];
    assert BellsThenX(again);
    hide BellsThenX, Run, Client, M.Flatten, Kept, Mirror, SameScreen;
    MirrorKept(w, b.cols, b.rows, chunks, |chunks|);
    ClientState(w, b, m);
    RunBells(w, Client(w, b, m), again);
    TwiceShows(w, b, m);
  }

  lemma MirrorIsX(w: Widths, cols: nat, rows: nat, chunks: seq<seq<byte>>)
    requires 0 < cols && 0 < rows && BellsThenX(chunks)
    ensures Mirror(w, cols, rows, chunks, |chunks|) == Run(w, Fresh(cols, rows), X)
  {
    assert chunks[..|chunks|] == chunks;
    hide Run, M.Flatten, BellsThenX;
    RunBells(w, Fresh(cols, rows), chunks);
  }

  lemma SoTwice(w: Widths, v: Vt, s: A.State)
    requires w('x') == One && w(' ') == One && v.Valid() && v.cols > 1 && BellsThenX(s.chunks)
    requires 0 < Since(s.log) <= s.next == |s.chunks| == A.Painted(s.log) && Sees(w, v, s.log, s.chunks, s.next)
    ensures !Shows(Mirror(w, v.cols, v.rows, s.chunks, s.next), View(w, v, s.log, s.chunks))
  {
    hide View, Repainted, Before, Since, A.Painted, Run, Client, Mirror, M.Flatten, Shows, BellsThenX;
    RepaintedIs(w, v, s.log, s.chunks);
    TwiceIsSeen(w, Before(w, v, s.log, s.chunks), s.chunks, s.next - Since(s.log));
  }

  const EARLY := [A.Subscribe, A.Read(X), A.Send, A.FirstReplay, A.Look, A.Recv]

  const PRINTED := A.State([X], 1, true, A.Subscribed, 0, 0, M.Text, [])

  lemma EarlyPrints()
    ensures A.Runs(A.START, [A.Subscribe, A.Read(X), A.Send])
    ensures A.After(A.START, [A.Subscribe, A.Read(X), A.Send]) == PRINTED
  {
    assert [] + [X] == [X];
    A.RunsThree(A.START, A.Subscribe, A.Read(X), A.Send);
  }

  lemma EarlyRepaints()
    ensures A.Runs(PRINTED, [A.FirstReplay, A.Look, A.Recv])
    ensures A.After(PRINTED, [A.FirstReplay, A.Look, A.Recv])
         == A.State([X], 1, true, A.Head, 0, 1, M.Text, [A.Replay(1), A.Raw(0)])
  {
    M.ScanPlain(X);
    hide M.Scan;
    assert [] + [A.Replay(1)] == [A.Replay(1)] && A.HeardAll([]) == [];
    assert [A.Replay(1)] + ([A.Raw(0)] + []) == [A.Replay(1), A.Raw(0)];
    A.RunsThree(PRINTED, A.FirstReplay, A.Look, A.Recv);
  }

  lemma EarlyRuns()
    ensures A.Runs(A.START, EARLY)
    ensures A.After(A.START, EARLY) == A.State([X], 1, true, A.Head, 0, 1, M.Text, [A.Replay(1), A.Raw(0)])
  {
    hide A.Runs, A.After, A.Can, A.Do;
    EarlyPrints();
    EarlyRepaints();
    A.RunsConcat(A.START, [A.Subscribe, A.Read(X), A.Send], [A.FirstReplay, A.Look, A.Recv]);
    assert [A.Subscribe, A.Read(X), A.Send] + [A.FirstReplay, A.Look, A.Recv] == EARLY;
  }

  lemma EarlyLog()
    ensures var log := [A.Replay(1), A.Raw(0)]; Since(log) == 1 && A.Painted(log) == 1 && BellsThenX([X])
  {
    var log := [A.Replay(1), A.Raw(0)];
    assert log[..1] == [A.Replay(1)];
  }

  /** A chunk read between the subscription and the replay is printed twice, and
      it shows: a client attached, with nothing yet to receive, whose screen is not
      the session's. */
  lemma RepaintShows(w: Widths, v: Vt)
    requires w('x') == One && w(' ') == One && v.Valid() && v.cols > 1
    ensures A.Runs(A.START, EARLY)
    ensures var s := A.After(A.START, EARLY);
            && A.Attached(s) && s.next == s.sent == |s.chunks|
            && !Shows(Mirror(w, v.cols, v.rows, s.chunks, s.next), View(w, v, s.log, s.chunks))
  {
    hide A.Runs, A.After, Since, A.Painted, Sees, View, Mirror, BellsThenX;
    EarlyRuns();
    EarlyLog();
    RunSees(w, v, EARLY);
    SoTwice(w, v, A.After(A.START, EARLY));
  }

  /** A client that takes what it has yet to receive. */
  function CatchUp(n: nat): seq<A.Step> { if n == 0 then [] else [A.Look, A.Recv] + CatchUp(n - 1) }

  /** A run that takes the `n` chunks still to come, and changes nothing else. */
  ghost predicate CaughtUpBy(s: A.State, run: seq<A.Step>, n: nat) {
    && A.Runs(s, run)
    && var t := A.After(s, run);
    && A.Attached(t) && t.chunks == s.chunks && t.sent == t.next == s.sent
    && Since(t.log) == Since(s.log) + n && A.Painted(t.log) == A.Painted(s.log)
  }

  ghost predicate Trails(s: A.State, n: nat) {
    s.alive && s.phase == A.Head && s.next + n == s.sent == |s.chunks| && n <= A.BACKLOG
  }

  lemma {:induction false} CatchesUp(s: A.State, n: nat)
    requires Trails(s, n)
    ensures CaughtUpBy(s, CatchUp(n), n)
    decreases n
  {
    hide *;
    if n == 0 {
      NothingToCatch(s);
    } else {
      OneMore(s, n);
      CatchesUp(A.After(s, [A.Look, A.Recv]), n - 1);
      CatchUpCons(n);
      CaughtUpCons(s, CatchUp(n - 1), n);
    }
  }

  lemma NothingToCatch(s: A.State)
    requires Trails(s, 0)
    ensures CaughtUpBy(s, CatchUp(0), 0)
  {
    hide Since, A.Painted;
  }

  lemma CatchUpCons(n: nat)
    requires n > 0
    ensures CatchUp(n) == [A.Look, A.Recv] + CatchUp(n - 1)
  {}

  lemma CaughtUpCons(s: A.State, rest: seq<A.Step>, n: nat)
    requires n > 0 && OneTaken(s) && CaughtUpBy(A.After(s, [A.Look, A.Recv]), rest, n - 1)
    ensures CaughtUpBy(s, [A.Look, A.Recv] + rest, n)
  {
    hide A.Runs, A.After, Since, A.Painted;
    A.RunsConcat(s, [A.Look, A.Recv], rest);
  }

  /** One chunk more has been taken. */
  ghost predicate OneTaken(s: A.State) {
    && A.Runs(s, [A.Look, A.Recv])
    && var t := A.After(s, [A.Look, A.Recv]);
    && t.alive && t.phase == A.Head && t.chunks == s.chunks && t.sent == s.sent && t.next == s.next + 1
    && Since(t.log) == Since(s.log) + 1 && A.Painted(t.log) == A.Painted(s.log)
  }

  lemma LooksAndReceives(s: A.State)
    requires s.alive && s.phase == A.Head && s.next < s.sent == |s.chunks| && !A.Lagged(s)
    ensures A.Runs(s, [A.Look, A.Recv])
    ensures var t, more := A.After(s, [A.Look, A.Recv]), A.HeardAll(M.Scan(s.scan, s.chunks[s.next]).1);
            && t.alive && t.phase == A.Head && t.chunks == s.chunks && t.sent == s.sent && t.next == s.next + 1
            && t.log == s.log + [A.Raw(s.next)] + more
  {
    hide M.Scan, A.HeardAll;
    A.RunsTwo(s, A.Look, A.Recv);
    hide A.Runs, A.After;
    var more := A.HeardAll(M.Scan(s.scan, s.chunks[s.next]).1);
    assert s.log + ([A.Raw(s.next)] + more) == s.log + [A.Raw(s.next)] + more;
  }

  lemma OneMore(s: A.State, n: nat)
    requires n > 0 && Trails(s, n)
    ensures OneTaken(s) && A.Runs(s, [A.Look, A.Recv]) && Trails(A.After(s, [A.Look, A.Recv]), n - 1)
  {
    var more := A.HeardAll(M.Scan(s.scan, s.chunks[s.next]).1);
    assert !A.Lagged(s);
    hide A.Runs, A.After, A.Lagged, M.Scan, Since, A.Painted;
    LooksAndReceives(s);
    SinceSnoc(s.log, A.Raw(s.next));
    SinceQuiet(s.log + [A.Raw(s.next)], more);
  }

  /** A client that falls a ringful and a chunk behind, is resynced, and catches up. */
  function Late(n: nat): seq<A.Step> {
    [A.Subscribe, A.FirstReplay] + A.Flood(n, [M.BEL]) + [A.Read(X), A.Send] + [A.Look, A.Recv, A.Resync] + CatchUp(n)
  }

  lemma LateFloods(n: nat)
    ensures A.Runs(A.START, [A.Subscribe, A.FirstReplay] + A.Flood(n, [M.BEL]))
    ensures var s := A.After(A.START, [A.Subscribe, A.FirstReplay] + A.Flood(n, [M.BEL]));
            && s.alive && s.phase == A.Head && s.next == 0 && s.sent == |s.chunks| == n
            && forall k :: 0 <= k < n ==> s.chunks[k] == [M.BEL]
  {
    var s2 := A.START.(phase := A.Head, log := [A.Replay(0)]);
    A.RunsTwo(A.START, A.Subscribe, A.FirstReplay);
    assert [] + [A.Replay(0)] == [A.Replay(0)];
    assert A.Do(A.Do(A.START, A.Subscribe), A.FirstReplay) == s2;
    hide A.Can, A.Do, A.Runs, A.After, A.Flood;
    A.FloodRuns(s2, n, [M.BEL]);
    A.RunsConcat(A.START, [A.Subscribe, A.FirstReplay], A.Flood(n, [M.BEL]));
  }

  lemma PrintsX(s: A.State)
    requires s.alive && s.sent == |s.chunks|
    ensures A.Runs(s, [A.Read(X), A.Send])
    ensures A.After(s, [A.Read(X), A.Send]) == s.(chunks := s.chunks + [X], sent := s.sent + 1)
  {
    A.RunsTwo(s, A.Read(X), A.Send);
  }

  lemma Resynced(s: A.State)
    requires s.alive && s.phase == A.Head && s.sent == |s.chunks| == s.next + A.BACKLOG + 1
    ensures A.Runs(s, [A.Look, A.Recv, A.Resync])
    ensures var t := A.After(s, [A.Look, A.Recv, A.Resync]);
            && t.alive && t.phase == A.Head && t.chunks == s.chunks && t.sent == s.sent && t.next == s.next + 1
            && Since(t.log) == 0 && A.Painted(t.log) == |s.chunks|
  {
    A.RunsThree(s, A.Look, A.Recv, A.Resync);
    SinceSnoc(s.log, A.Replay(|s.chunks|));
    hide Since, A.Painted, M.Scan;
  }

  lemma LateRuns(n: nat)
    requires n == A.BACKLOG
    ensures A.Runs(A.START, Late(n))
    ensures var s := A.After(A.START, Late(n));
            && A.Attached(s) && s.next == s.sent == |s.chunks| && BellsThenX(s.chunks)
            && 0 < Since(s.log) <= s.next && A.Painted(s.log) == |s.chunks|
  {
    assert n > 0;
    var a := [A.Subscribe, A.FirstReplay] + A.Flood(n, [M.BEL]);
    var b, c := [A.Read(X), A.Send], [A.Look, A.Recv, A.Resync];
    assert Late(n) == a + b + c + CatchUp(n);
    hide *;
    LateFloods(n);
    var s := A.After(A.START, a);
    PrintsX(s);
    A.RunsConcat(A.START, a, b);
    var t := A.After(A.START, a + b);
    LastIsX(s.chunks);
    Resynced(t);
    A.RunsConcat(A.START, a + b, c);
    CatchesUp(A.After(A.START, a + b + c), n);
    A.RunsConcat(A.START, a + b + c, CatchUp(n));
  }

  lemma LastIsX(chunks: seq<seq<byte>>)
    requires forall k :: 0 <= k < |chunks| ==> chunks[k] == [M.BEL]
    ensures BellsThenX(chunks + [X])
  {}

  /** So is the ringful that a resynced client is forwarded although the resync has
      painted it, and that shows in a client which has caught up again. */
  lemma ResyncShows(w: Widths, v: Vt)
    requires w('x') == One && w(' ') == One && v.Valid() && v.cols > 1
    ensures A.Runs(A.START, Late(A.BACKLOG))
    ensures var s := A.After(A.START, Late(A.BACKLOG));
            && A.Attached(s) && s.next == s.sent == |s.chunks|
            && !Shows(Mirror(w, v.cols, v.rows, s.chunks, s.next), View(w, v, s.log, s.chunks))
  {
    hide *;
    LateShows(w, v, A.BACKLOG);
  }

  lemma LateShows(w: Widths, v: Vt, n: nat)
    requires w('x') == One && w(' ') == One && v.Valid() && v.cols > 1 && n == A.BACKLOG
    ensures A.Runs(A.START, Late(n))
    ensures var s := A.After(A.START, Late(n));
            && A.Attached(s) && s.next == s.sent == |s.chunks|
            && !Shows(Mirror(w, v.cols, v.rows, s.chunks, s.next), View(w, v, s.log, s.chunks))
  {
    hide *;
    LateRuns(n);
    RunSees(w, v, Late(n));
    SoTwice(w, v, A.After(A.START, Late(n)));
  }
}
