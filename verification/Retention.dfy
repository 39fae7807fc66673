/**
 The files of the output directory, over every run of one process: what the window or a
 player may still need is there and unchanged, and the number of segment files is bounded.
 */
module Retention {
  import opened Common
  import opened Stitcher
  import opened LivePlaylist
  import opened Airings

  /** The segments that leave when a segment is added. */
  function Removed(cfg: Config, s: State, m: Segment): seq<Segment> {
    (s.items + [m])[..Leaving(|s.items| + 1, cfg.maxSize)]
  }

  /** The departures so far and those of one clip. */
  function Departed(cfg: Config, s: State, gone: seq<Batch>, o: Option<Airing>): seq<Batch> {
    if o.None? then gone else Retire(gone, Removed(cfg, s, o.value.segment), o.value.clip.start)
  }

  /** Every departure of the run: the files, and the stream time when their segments left the window. */
  function Departures(cfg: Config, s: State, tries: seq<Try>): seq<Batch> {
    if tries == [] then []
    else
      var t, rest := tries[|tries| - 1], tries[..|tries| - 1];
      var s1 := TryAll(cfg, s, rest);
      Departed(cfg, s1, Departures(cfg, s, rest), Outcome(cfg, s1, t.clip, t.world, t.write))
  }

  // ----- names -----

  lemma {:induction false} NamesConcat(a: seq<Segment>, b: seq<Segment>)
    ensures Names(a + b) == Names(a) + Names(b)
    decreases |b|
  {
    if b == [] {
      assert a + b == a;
    } else {
      assert (a + b)[..|a + b| - 1] == a + b[..|b| - 1];
      NamesConcat(a, b[..|b| - 1]);
    }
  }

  lemma {:induction false} NamesMember(items: seq<Segment>, f: FileName)
    ensures f in Names(items) <==> exists i :: 0 <= i < |items| && f in NamesOf(items[i])
    decreases |items|
  {
    if items != [] {
      var n := |items| - 1;
      NamesMember(items[..n], f);
    }
  }

  lemma {:induction false} BatchMember(bs: seq<Batch>, f: FileName)
    ensures f in BatchNames(bs) <==> exists i :: 0 <= i < |bs| && f in bs[i].names
    decreases |bs|
  {
    if bs != [] {
      var n := |bs| - 1;
      BatchMember(bs[..n], f);
    }
  }

  // ----- expiry -----

  ghost predicate Expired(items: seq<Segment>, retired: seq<Batch>, disk: Disk, now: int, keep: int, left: seq<Batch>,
      d: Disk)
  {
    && |left| <= |retired| && left == retired[|retired| - |left|..]
    && (forall i :: 0 <= i < |retired| - |left| ==> now - retired[i].at >= keep)
    && (left != [] ==> now - left[0].at < keep)
    && (forall f <- d :: f in disk && d[f] == disk[f])
    && (forall f <- disk :: f in Names(items) || f in BatchNames(left) || f !in BatchNames(retired) ==> f in d)
    && (forall f <- d :: f in BatchNames(retired) ==> f in Names(items) || f in BatchNames(left))
  }

  lemma {:induction false} ExpiryDeletesWhatIsDue(items: seq<Segment>, retired: seq<Batch>, disk: Disk, now: int,
      keep: int)
    ensures var (left, d) := Expire(items, retired, disk, now, keep);
      Expired(items, retired, disk, now, keep, left, d)
    decreases |retired|
  {
    if retired == [] || now - retired[0].at < keep {
      assert retired[0..] == retired;
    } else {
      var d1 := disk - Deletable(items, retired[1..], retired[0]);
      ExpiryDeletesWhatIsDue(items, retired[1..], d1, now, keep);
      var e := Expire(items, retired[1..], d1, now, keep);
      OneBatch(items, retired, disk, now, keep, e.0, e.1);
    }
  }

  lemma {:induction false} FirstBatch(retired: seq<Batch>)
    requires retired != []
    ensures BatchNames(retired) == retired[0].names + BatchNames(retired[1..])
  {
    forall f ensures f in BatchNames(retired) <==> f in retired[0].names + BatchNames(retired[1..]) {
      BatchMember(retired, f);
      BatchMember(retired[1..], f);
      if f in BatchNames(retired[1..]) {
        var i :| 0 <= i < |retired[1..]| && f in retired[1..][i].names;
        assert f in retired[i + 1].names;
      }
      if f in BatchNames(retired) {
        var i :| 0 <= i < |retired| && f in retired[i].names;
        assert i == 0 || retired[1..][i - 1] == retired[i];
      }
    }
  }

  lemma {:induction false} OneBatch(items: seq<Segment>, retired: seq<Batch>, disk: Disk, now: int, keep: int,
      left: seq<Batch>, d: Disk)
    requires retired != [] && now - retired[0].at >= keep
    requires Expired(items, retired[1..], disk - Deletable(items, retired[1..], retired[0]), now, keep, left, d)
    ensures Expired(items, retired, disk, now, keep, left, d)
  {
    hide Names, BatchNames;
    FirstBatch(retired);
    var n := |retired| - |left|;
    assert left == retired[n..] by { assert retired[1..][n - 1..] == retired[n..]; }
    forall i | 0 <= i < n ensures now - retired[i].at >= keep {
      if i > 0 { assert retired[i] == retired[1..][i - 1]; }
    }
    forall f | f in BatchNames(left) ensures f in BatchNames(retired[1..]) {
      BatchMember(left, f);
      BatchMember(retired[1..], f);
      var i :| 0 <= i < |left| && f in left[i].names;
      assert left[i] == retired[1..][n - 1 + i];
    }
  }

  // ----- what holds between clips -----

  /** The retired files are the latest departures, oldest first; the earlier ones are long gone. */
  ghost predicate Ledger(cfg: Config, s: State, gone: seq<Batch>) {
    && |s.retired| <= |gone| && s.retired == gone[|gone| - |s.retired|..]
    && (forall i, j :: 0 <= i < j < |gone| ==> gone[i].at < gone[j].at)
    && (gone != [] ==> s.lastStart.Some? && gone[|gone| - 1].at <= s.lastStart.value)
    && (forall i :: 0 <= i < |gone| - |s.retired| ==> s.lastStart.Some? && s.lastStart.value - gone[i].at >= cfg.retain)
    && (s.retired != [] ==> s.lastStart.Some? && s.lastStart.value - s.retired[0].at < cfg.retain)
  }

  predicate OneSegment(names: set<FileName>) {
    forall f, g :: f in names && g in names && f.SegmentFile? && g.SegmentFile? ==> f == g
  }

  predicate Named(items: seq<Segment>) {
    forall m <- items :: m.file.SegmentFile? && m.init.Some? && m.init.value.InitFile?
  }

  /** The files of the window and the retired ones are there, and no other segments. */
  ghost predicate Stored(s: State) {
    && Named(s.items)
    && Names(s.items) <= s.disk.Keys && BatchNames(s.retired) <= s.disk.Keys
    && (forall f <- s.disk :: f.SegmentFile? ==>
          f.number < s.nextNumber && (f in Names(s.items) || f in BatchNames(s.retired)))
    && (forall b <- s.retired :: OneSegment(b.names))
  }

  /** A file holds what was written for it, as long as it is there. */
  ghost predicate Honest(s: State, aired: seq<Airing>) {
    && (forall f <- s.disk :: f.InitFile? ==> s.disk[f] == f.bytes)
    && (forall a <- aired ::
          && a.segment.file.SegmentFile? && a.segment.file.number < s.nextNumber
          && (a.segment.file in s.disk ==> s.disk[a.segment.file] == a.retimed.media))
  }

  /** A process that begins: the files of its window and no other segments. */
  ghost predicate Opened(cfg: Config, s: State) {
    GoodState(cfg, s) && s.retired == [] && Stored(s) && Honest(s, [])
  }

  // ----- one clip -----

  /** The ledger while files expire. */
  ghost predicate Pending(cfg: Config, gone: seq<Batch>, retired: seq<Batch>, now: int) {
    && |retired| <= |gone| && retired == gone[|gone| - |retired|..]
    && (forall i, j :: 0 <= i < j < |gone| ==> gone[i].at < gone[j].at)
    && (gone != [] ==> gone[|gone| - 1].at <= now)
    && (forall i :: 0 <= i < |gone| - |retired| ==> now - gone[i].at >= cfg.retain)
  }

  lemma {:induction false} LedgerGrows(cfg: Config, s: State, gone: seq<Batch>, c: Clip, removed: seq<Segment>)
    requires Ledger(cfg, s, gone) && !Duplicate(s, c)
    ensures Pending(cfg, Retire(gone, removed, c.start), Retire(s.retired, removed, c.start), c.start)
  {
    hide Names;
    LedgerIsPending(cfg, s, gone, c.start);
    if removed != [] {
      OneMorePending(cfg, gone, s.retired, c.start, Batch(Names(removed), c.start));
    }
  }

  lemma {:induction false} LedgerIsPending(cfg: Config, s: State, gone: seq<Batch>, now: int)
    requires Ledger(cfg, s, gone) && (s.lastStart.Some? ==> s.lastStart.value < now)
    ensures Pending(cfg, gone, s.retired, now) && (gone != [] ==> gone[|gone| - 1].at < now)
  {
  }

  lemma {:induction false} OneMorePending(cfg: Config, gone: seq<Batch>, retired: seq<Batch>, now: int, b: Batch)
    requires Pending(cfg, gone, retired, now) && (gone != [] ==> gone[|gone| - 1].at < now) && b.at == now
    ensures Pending(cfg, gone + [b], retired + [b], now)
  {
    var n := |gone| - |retired|;
    assert (gone + [b])[n..] == gone[n..] + [b];
    forall i, j | 0 <= i < j < |gone + [b]| ensures (gone + [b])[i].at < (gone + [b])[j].at {
      if i < j == |gone| { assert gone[i].at <= gone[|gone| - 1].at; }
    }
  }

  lemma {:induction false} LedgerExpires(cfg: Config, s: State, gone: seq<Batch>, items: seq<Segment>,
      retired: seq<Batch>, disk: Disk, d: Disk)
    requires s.lastStart.Some? && Pending(cfg, gone, retired, s.lastStart.value)
    requires Expired(items, retired, disk, s.lastStart.value, cfg.retain, s.retired, d)
    ensures Ledger(cfg, s, gone)
  {
    hide Names, BatchNames;
    var n := |gone| - |retired|;
    assert s.retired == gone[|gone| - |s.retired|..];
    forall i | 0 <= i < |gone| - |s.retired| ensures s.lastStart.value - gone[i].at >= cfg.retain {
      if i >= n { assert gone[i] == retired[i - n]; }
    }
  }

  lemma {:induction false} SlidKeepsLedger(cfg: Config, s: State, gone: seq<Batch>, c: Clip, rt: Retimed, m: Segment)
    requires Ledger(cfg, s, gone) && !Duplicate(s, c)
    ensures Ledger(cfg, Slid(cfg, s, c, rt, m), Retire(gone, Removed(cfg, s, m), c.start))
  {
    hide Expire, Discs, Leaving, Retire, Ledger, Pending, Expired;
    var k := Leaving(|s.items| + 1, cfg.maxSize);
    var all := s.items + [m];
    var r := Retire(s.retired, all[..k], c.start);
    LedgerGrows(cfg, s, gone, c, all[..k]);
    ExpiryDeletesWhatIsDue(all[k..], r, s.disk, c.start, cfg.retain);
    var s' := Slid(cfg, s, c, rt, m);
    LedgerExpires(cfg, s', Retire(gone, all[..k], c.start), all[k..], r, s.disk, s'.disk);
  }

  lemma {:induction false} AppendedKeepsLedger(cfg: Config, s: State, gone: seq<Batch>, c: Clip, rt: Retimed)
    requires Ledger(cfg, s, gone) && !Duplicate(s, c)
    ensures Ledger(cfg, Appended(cfg, s, c, rt), Retire(gone, Removed(cfg, s, Entry(cfg.mode, s, c, rt)), c.start))
  {
    hide Entry, WithInit, Slid, Ledger, Retire, Leaving;
    var m := Entry(cfg.mode, s, c, rt);
    var s1 := s.(disk := WithInit(s.disk, rt)[m.file := rt.media]);
    SameLedger(cfg, s, s1, gone);
    SlidKeepsLedger(cfg, s1, gone, c, rt, m);
  }

  lemma {:induction false} ClipKeepsLedger(cfg: Config, s: State, gone: seq<Batch>, c: Clip, world: World, w: Write)
    requires Ledger(cfg, s, gone)
    ensures Ledger(cfg, After(cfg, s, c, world, w), Departed(cfg, s, gone, Outcome(cfg, s, c, world, w)))
  {
    hide Resolve, Entry, Writes, WithInit, Appended, Ledger, Retire, Removed;
    var o := Outcome(cfg, s, c, world, w);
    if o.None? {
      SameLedger(cfg, s, After(cfg, s, c, world, w), gone);
    } else {
      AppendedKeepsLedger(cfg, s, gone, c, o.value.retimed);
    }
  }

  lemma {:induction false} SameLedger(cfg: Config, s: State, s': State, gone: seq<Batch>)
    requires Ledger(cfg, s, gone) && s'.retired == s.retired && s'.lastStart == s.lastStart
    ensures Ledger(cfg, s', gone)
  {
  }

  /** What a new segment finds in the directory. */
  ghost predicate Ready(s: State, m: Segment) {
    && Named(s.items + [m]) && Names(s.items + [m]) <= s.disk.Keys && BatchNames(s.retired) <= s.disk.Keys
    && (forall f <- s.disk :: f.SegmentFile? ==>
          f.number <= m.number && (f in Names(s.items + [m]) || f in BatchNames(s.retired)))
    && (forall b <- s.retired :: OneSegment(b.names))
  }

  lemma {:induction false} WriteMakesReady(cfg: Config, s: State, c: Clip, rt: Retimed)
    requires GoodState(cfg, s) && Stored(s)
    ensures var m := Entry(cfg.mode, s, c, rt);
      && m.file !in s.disk
      && Ready(s.(disk := WithInit(s.disk, rt)[m.file := rt.media]), m)
  {
    hide BreakTags, Discontinuous, BatchNames, GoodItems;
    var m := Entry(cfg.mode, s, c, rt);
    NamesConcat(s.items, [m]);
    assert Names([m]) == NamesOf(m) by { assert [m][..0] == []; }
    assert m.number >= s.nextNumber;
  }

  lemma {:induction false} LeavingIsOneSegment(cfg: Config, s: State, m: Segment)
    requires |s.items| <= cfg.maxSize && Named(s.items + [m])
    ensures OneSegment(Names(Removed(cfg, s, m)))
  {
    var r := Removed(cfg, s, m);
    assert |r| <= 1;
    if r != [] {
      assert r[0] in s.items + [m] && r[..0] == [];
      assert Names(r) == NamesOf(r[0]);
    }
  }

  lemma {:induction false} RetireNames(retired: seq<Batch>, removed: seq<Segment>, now: int)
    ensures BatchNames(Retire(retired, removed, now)) == BatchNames(retired) + Names(removed)
  {
    if removed != [] {
      assert Retire(retired, removed, now)[..|retired|] == retired;
    }
  }

  lemma {:induction false} SuffixNames(r: seq<Batch>, left: seq<Batch>)
    requires |left| <= |r| && left == r[|r| - |left|..]
    ensures BatchNames(left) <= BatchNames(r)
  {
    forall f | f in BatchNames(left) ensures f in BatchNames(r) {
      BatchMember(left, f);
      BatchMember(r, f);
      var i :| 0 <= i < |left| && f in left[i].names;
      assert left[i] == r[|r| - |left| + i];
    }
  }

  lemma {:induction false} StillOneSegment(retired: seq<Batch>, removed: seq<Segment>, now: int, left: seq<Batch>)
    requires (forall b <- retired :: OneSegment(b.names)) && OneSegment(Names(removed))
    requires var r := Retire(retired, removed, now); |left| <= |r| && left == r[|r| - |left|..]
    ensures forall b <- left :: OneSegment(b.names)
  {
    hide OneSegment, Names;
    forall b | b in left ensures OneSegment(b.names) {
      assert b in Retire(retired, removed, now);
      RetiredFrom(retired, removed, now, b);
    }
  }

  /** What is left on the disk when a window of kept segments and removed ones has expired its files. */
  lemma {:induction false} ExpiredIsStored(gone: seq<Segment>, kept: seq<Segment>, retired: seq<Batch>, disk: Disk,
      now: int, keep: int, left: seq<Batch>, d: Disk)
    requires Names(gone) + Names(kept) + BatchNames(retired) <= disk.Keys
    requires forall f <- disk :: f.SegmentFile? ==> f in Names(gone) || f in Names(kept) || f in BatchNames(retired)
    requires Expired(kept, Retire(retired, gone, now), disk, now, keep, left, d)
    ensures Names(kept) <= d.Keys && BatchNames(left) <= d.Keys
    ensures forall f <- d :: f.SegmentFile? ==> f in Names(kept) || f in BatchNames(left)
  {
    RetireNames(retired, gone, now);
    SuffixNames(Retire(retired, gone, now), left);
    hide Names, BatchNames, Retire;
  }

  lemma {:induction false} ReadyIsStored(cfg: Config, s: State, c: Clip, rt: Retimed, m: Segment)
    requires |s.items| <= cfg.maxSize && Ready(s, m)
    ensures Stored(Slid(cfg, s, c, rt, m))
    ensures forall f <- Slid(cfg, s, c, rt, m).disk :: f in s.disk && Slid(cfg, s, c, rt, m).disk[f] == s.disk[f]
  {
    hide Expire, Discs, Leaving, Names, BatchNames, Retire, OneSegment;
    var k := Leaving(|s.items| + 1, cfg.maxSize);
    var all := s.items + [m];
    ExpiryDeletesWhatIsDue(all[k..], Retire(s.retired, all[..k], c.start), s.disk, c.start, cfg.retain);
    var s' := Slid(cfg, s, c, rt, m);
    assert Names(all) == Names(all[..k]) + Names(all[k..]) by {
      assert all == all[..k] + all[k..];
      NamesConcat(all[..k], all[k..]);
    }
    LeavingIsOneSegment(cfg, s, m);
    StillOneSegment(s.retired, all[..k], c.start, s'.retired);
    ExpiredIsStored(all[..k], all[k..], s.retired, s.disk, c.start, cfg.retain, s'.retired, s'.disk);
    assert forall x <- all[k..] :: x in all;
  }

  lemma {:induction false} RetiredFrom(retired: seq<Batch>, removed: seq<Segment>, now: int, b: Batch)
    requires b in Retire(retired, removed, now)
    ensures b in retired || b.names == Names(removed)
  {
  }

  // ----- whole runs -----

  lemma {:induction false} WriteIsHonest(cfg: Config, s: State, aired: seq<Airing>, c: Clip, rt: Retimed)
    requires Honest(s, aired) && GoodState(cfg, s)
    ensures var m := Entry(cfg.mode, s, c, rt);
      var s1 := s.(disk := WithInit(s.disk, rt)[m.file := rt.media]);
      Honest(s1.(nextNumber := m.number + 1), aired + [Airing(c, rt, m)])
  {
    hide BreakTags, Discontinuous, GoodItems;
    var m := Entry(cfg.mode, s, c, rt);
    assert m.number >= s.nextNumber;
  }

  lemma {:induction false} StaysHonest(s: State, s': State, aired: seq<Airing>)
    requires Honest(s, aired) && s'.nextNumber == s.nextNumber
    requires forall f <- s'.disk :: f in s.disk && s'.disk[f] == s.disk[f]
    ensures Honest(s', aired)
  {
  }

  lemma {:induction false} FailedClipKeepsFiles(cfg: Config, s: State, aired: seq<Airing>, c: Clip, world: World,
      w: Write)
    requires Stored(s) && Honest(s, aired) && Outcome(cfg, s, c, world, w).None?
    ensures Stored(After(cfg, s, c, world, w)) && Honest(After(cfg, s, c, world, w), aired)
  {
    hide Resolve, Entry, Writes, Names, BatchNames, OneSegment;
  }

  lemma {:induction false} ClipKeepsFiles(cfg: Config, s: State, aired: seq<Airing>, c: Clip, world: World, w: Write)
    requires GoodState(cfg, s) && Stored(s) && Honest(s, aired)
    ensures var (o, s') := (Outcome(cfg, s, c, world, w), After(cfg, s, c, world, w));
      Stored(s') && Honest(s', aired + if o.Some? then [o.value] else [])
  {
    hide Resolve, Entry, Writes, WithInit, GoodItems, Stored, Honest, Ready, Expire, Discs, Leaving, Retire;
    var o, s' := Outcome(cfg, s, c, world, w), After(cfg, s, c, world, w);
    if o.None? {
      FailedClipKeepsFiles(cfg, s, aired, c, world, w);
      assert aired + [] == aired;
    } else {
      var (rt, m) := (o.value.retimed, o.value.segment);
      var s1 := s.(disk := WithInit(s.disk, rt)[m.file := rt.media]);
      WriteMakesReady(cfg, s, c, rt);
      assert |s1.items| <= cfg.maxSize by { FewItems(cfg, s); }
      ReadyIsStored(cfg, s1, c, rt, m);
      WriteIsHonest(cfg, s, aired, c, rt);
      StaysHonest(s1.(nextNumber := m.number + 1), s', aired + [o.value]);
    }
  }

  lemma {:induction false} FewItems(cfg: Config, s: State)
    requires GoodState(cfg, s)
    ensures |s.items| <= cfg.maxSize
  {
  }

  lemma {:induction false} OpenedIsGood(cfg: Config, s: State)
    requires Opened(cfg, s)
    ensures GoodState(cfg, s) && Stored(s) && Honest(s, []) && Ledger(cfg, s, [])
  {
    hide GoodState, Stored, Honest;
  }

  lemma {:induction false} RunKeepsFiles(cfg: Config, s: State, tries: seq<Try>)
    requires Sound(cfg) && Opened(cfg, s)
    ensures var s' := TryAll(cfg, s, tries);
      GoodState(cfg, s') && Stored(s') && Honest(s', Aired(cfg, s, tries)) && Ledger(cfg, s', Departures(cfg, s, tries))
    decreases |tries|
  {
    hide Outcome, After, GoodState, Stored, Honest, Ledger, Slides, Departed;
    if tries == [] {
      OpenedIsGood(cfg, s);
    } else {
      var t, rest := tries[|tries| - 1], tries[..|tries| - 1];
      RunKeepsFiles(cfg, s, rest);
      var s1 := TryAll(cfg, s, rest);
      ClipSlides(cfg, s1, t.clip, t.world, t.write);
      ClipKeepsFiles(cfg, s1, Aired(cfg, s, rest), t.clip, t.world, t.write);
      ClipKeepsLedger(cfg, s1, Departures(cfg, s, rest), t.clip, t.world, t.write);
    }
  }

  // ----- counting -----

  function Segments(names: set<FileName>): set<FileName> { set f | f in names && f.SegmentFile? }

  lemma {:induction false} UnionIsSmall<T>(a: set<T>, b: set<T>)
    ensures |a + b| <= |a| + |b|
  {
    assert |a + b| == |a| + |b| - |a * b|;
  }

  lemma {:induction false} AtMostOne(names: set<FileName>)
    requires OneSegment(names)
    ensures |Segments(names)| <= 1
  {
    var g := Segments(names);
    if g != {} {
      var f :| f in g;
      assert g == {f};
    }
  }

  lemma {:induction false} FewWindowFiles(items: seq<Segment>)
    requires Named(items)
    ensures |Segments(Names(items))| <= |items|
    decreases |items|
  {
    if items == [] {
      assert Segments(Names(items)) == {};
    } else {
      var n := |items| - 1;
      FewWindowFiles(items[..n]);
      AtMostOne(NamesOf(items[n]));
      UnionIsSmall(Segments(Names(items[..n])), Segments(NamesOf(items[n])));
      assert Segments(Names(items)) == Segments(Names(items[..n])) + Segments(NamesOf(items[n]));
    }
  }

  lemma {:induction false} FewRetiredFiles(bs: seq<Batch>)
    requires forall b <- bs :: OneSegment(b.names)
    ensures |Segments(BatchNames(bs))| <= |bs|
    decreases |bs|
  {
    if bs == [] {
      assert Segments(BatchNames(bs)) == {};
    } else {
      var n := |bs| - 1;
      FewRetiredFiles(bs[..n]);
      AtMostOne(bs[n].names);
      UnionIsSmall(Segments(BatchNames(bs[..n])), Segments(bs[n].names));
      assert Segments(BatchNames(bs)) == Segments(BatchNames(bs[..n])) + Segments(bs[n].names);
    }
  }

  lemma {:induction false} Subsets<T>(a: set<T>, b: set<T>)
    requires a <= b
    ensures |a| <= |b|
  {
    assert b == a + (b - a);
  }

  /** Departures are in different seconds. */
  lemma {:induction false} TimesSpread(bs: seq<Batch>)
    requires bs != [] && forall i, j :: 0 <= i < j < |bs| ==> bs[i].at < bs[j].at
    ensures bs[|bs| - 1].at >= bs[0].at + |bs| - 1
    decreases |bs|
  {
    if |bs| > 1 {
      var n := |bs| - 1;
      TimesSpread(bs[..n]);
      assert bs[n - 1].at < bs[n].at;
    }
  }

  lemma {:induction false} FewRetired(cfg: Config, s: State, gone: seq<Batch>)
    requires Ledger(cfg, s, gone)
    ensures |s.retired| <= if cfg.retain > 0 then cfg.retain else 0
  {
    if s.retired != [] {
      var n := |gone| - |s.retired|;
      assert forall i :: 0 <= i < |s.retired| ==> s.retired[i] == gone[n + i];
      TimesSpread(s.retired);
    }
  }

  /**
   In every run: the files of the window are there, those of segments that left less than the
   retention time ago too, each holds what was written for it, and there are at most as many
   segment files as the window and the retention time have seconds.
   */
  lemma {:induction false} FilesAreRetained(cfg: Config, s: State, tries: seq<Try>)
    requires Sound(cfg) && Opened(cfg, s)
    ensures var s' := TryAll(cfg, s, tries);
      && Names(s'.items) <= s'.disk.Keys
      && (forall b <- Departures(cfg, s, tries) ::
            s'.lastStart.Some? && (s'.lastStart.value - b.at < cfg.retain ==> b.names <= s'.disk.Keys))
      && (forall a <- Aired(cfg, s, tries) ::
            a.segment.file in s'.disk ==> s'.disk[a.segment.file] == a.retimed.media)
      && |Segments(s'.disk.Keys)| <= cfg.maxSize + if cfg.retain > 0 then cfg.retain else 0
  {
    hide Departures, Aired, TryAll, GoodState, Ledger, OneSegment, Names, BatchNames;
    RunKeepsFiles(cfg, s, tries);
    var s', gone := TryAll(cfg, s, tries), Departures(cfg, s, tries);
    RecentFilesStay(cfg, s', gone);
    FewSegments(cfg, s', gone);
  }

  lemma {:induction false} RecentFilesStay(cfg: Config, s: State, gone: seq<Batch>)
    requires Stored(s) && Ledger(cfg, s, gone)
    ensures forall b <- gone :: s.lastStart.Some? && (s.lastStart.value - b.at < cfg.retain ==> b.names <= s.disk.Keys)
  {
    hide Names, BatchNames, OneSegment;
    forall b | b in gone && s.lastStart.value - b.at < cfg.retain ensures b.names <= s.disk.Keys {
      var i :| 0 <= i < |gone| && gone[i] == b;
      assert s.retired[i - (|gone| - |s.retired|)] == b;
      forall f | f in b.names ensures f in s.disk { BatchMember(s.retired, f); }
    }
  }

  lemma {:induction false} FewSegments(cfg: Config, s: State, gone: seq<Batch>)
    requires GoodState(cfg, s) && Stored(s) && Ledger(cfg, s, gone)
    ensures |Segments(s.disk.Keys)| <= cfg.maxSize + if cfg.retain > 0 then cfg.retain else 0
  {
    hide Names, BatchNames, OneSegment;
    var a, b := Segments(Names(s.items)), Segments(BatchNames(s.retired));
    FewWindowFiles(s.items);
    FewRetiredFiles(s.retired);
    FewRetired(cfg, s, gone);
    UnionIsSmall(a, b);
    Subsets(Segments(s.disk.Keys), a + b);
  }

  /** A process that starts with an empty directory. */
  lemma {:induction false} FreshIsOpened(cfg: Config)
    ensures Opened(cfg, Fresh(map[]))
  {
  }
}
