/** Watching a folder for new files without posting ngPost's own renames
    (src/FoldersMonitorForNewFiles.cpp). */
module FolderMonitor {
  import opened Options

  type Name = string

  /** The size and modification time of a path, as one sample. */
  datatype Stat = Stat(size: int, modified: int)

  // ---- Waiting for a file to settle ----

  /** `samples` is ghost in spirit: every sample taken of this entry, newest last. */
  datatype Entry = Entry(name: Name, last: Stat, nbStable: nat, samples: seq<Stat>)

  function FirstSample(name: Name, stat: Stat): Entry { Entry(name, stat, 0, [stat]) }

  function Sampled(e: Entry, stat: Stat): Entry {
    Entry(e.name, stat, if stat == e.last then e.nbStable + 1 else 0, e.samples + [stat])
  }

  /** The last `nbStable + 1` samples are all the same. */
  predicate IsSteady(e: Entry) {
    && |e.samples| > e.nbStable && e.samples[|e.samples| - 1] == e.last
    && forall i | |e.samples| - 1 - e.nbStable <= i < |e.samples| :: e.samples[i] == e.last
  }

  lemma SampleKeepsSteady(e: Entry, stat: Stat)
    requires IsSteady(e)
    ensures IsSteady(Sampled(e, stat))
  {
  }

  /** One entry in one round: gone, still moving, or settled. `seen` is what its own
      sample finds. */
  function Later(e: Entry, seen: Option<Stat>, stableScans: nat): Option<Entry> {
    if seen.None? then None
    else
      var f := Sampled(e, seen.value);
      if f.nbStable < stableScans then Some(f) else None
  }

  function Settled(e: Entry, seen: Option<Stat>, stableScans: nat): Option<Entry> {
    if seen.None? then None
    else
      var f := Sampled(e, seen.value);
      if f.nbStable < stableScans then None else Some(f)
  }

  /** The entries still pending after a round in which each was sampled once. */
  function StillPending(pending: seq<Entry>, seen: seq<Option<Stat>>, stableScans: nat): seq<Entry>
    requires |pending| == |seen|
  {
    if pending == [] then [] else
      var later := Later(pending[0], seen[0], stableScans);
      (if later.Some? then [later.value] else []) + StillPending(pending[1..], seen[1..], stableScans)
  }

  /** The entries reported by the round, last one first. */
  function Reported(pending: seq<Entry>, seen: seq<Option<Stat>>, stableScans: nat): seq<Entry>
    requires |pending| == |seen|
  {
    if pending == [] then [] else
      var settled := Settled(pending[0], seen[0], stableScans);
      Reported(pending[1..], seen[1..], stableScans) + (if settled.Some? then [settled.value] else [])
  }

  /** A round over all the pending entries, backwards, removing those that are gone or
      settled: every entry is sampled exactly once, whatever is removed around it. */
  method Round(pending: seq<Entry>, seen: seq<Option<Stat>>, stableScans: nat)
    returns (left: seq<Entry>, reported: seq<Entry>)
    requires |pending| == |seen|
    ensures left == StillPending(pending, seen, stableScans)
    ensures reported == Reported(pending, seen, stableScans)
  {
    left, reported := pending, [];
    var i := |pending| - 1;
    while i >= 0
      invariant -1 <= i < |pending| && |left| > i
      invariant left[..i + 1] == pending[..i + 1]
      invariant left[i + 1..] == StillPending(pending[i + 1..], seen[i + 1..], stableScans)
      invariant reported == Reported(pending[i + 1..], seen[i + 1..], stableScans)
    {
      var entry := left[i];
      assert entry == left[..i + 1][i] == pending[i];
      assert pending[i..][1..] == pending[i + 1..] && seen[i..][1..] == seen[i + 1..];
      ghost var rest := left[i + 1..];
      if seen[i].None? {
        left := left[..i] + left[i + 1..];
      } else {
        entry := Sampled(entry, seen[i].value);
        if entry.nbStable < stableScans {
          left := left[i := entry];
          assert left[i..] == [entry] + rest;
        } else {
          reported := reported + [entry];
          left := left[..i] + left[i + 1..];
        }
      }
      i := i - 1;
    }
    assert pending[0..] == pending && seen[0..] == seen && left[0..] == left;
  }

  /** Every path reported was seen unchanged in `stableScans` consecutive rounds. */
  lemma {:induction false} ReportedIsStable(pending: seq<Entry>, seen: seq<Option<Stat>>, stableScans: nat)
    requires |pending| == |seen| && forall e | e in pending :: IsSteady(e)
    ensures forall e | e in StillPending(pending, seen, stableScans) :: IsSteady(e)
    ensures forall e | e in Reported(pending, seen, stableScans) ::
              IsSteady(e) && e.nbStable >= stableScans && |e.samples| > stableScans
  {
    if pending != [] {
      ReportedIsStable(pending[1..], seen[1..], stableScans);
      assert pending[0] in pending;
      if seen[0].Some? {
        SampleKeepsSteady(pending[0], seen[0].value);
      }
    }
  }

  /** What a round finds of each entry in the folder as it is. */
  function Seen(pending: seq<Entry>, folder: map<Name, Stat>): (seen: seq<Option<Stat>>)
    ensures |seen| == |pending|
  {
    seq(|pending|, i requires 0 <= i < |pending| =>
      if pending[i].name in folder then Some(folder[pending[i].name]) else None)
  }

  /** The reports of all rounds of a scan, one folder state a round. */
  function AllReported(pending: seq<Entry>, rounds: seq<map<Name, Stat>>, stableScans: nat): seq<Entry>
    decreases |rounds|
  {
    if rounds == [] then [] else
      var seen := Seen(pending, rounds[0]);
      Reported(pending, seen, stableScans)
      + AllReported(StillPending(pending, seen, stableScans), rounds[1..], stableScans)
  }

  lemma {:induction false} SteadyReports(pending: seq<Entry>, rounds: seq<map<Name, Stat>>, stableScans: nat)
    requires forall e | e in pending :: IsSteady(e)
    ensures forall e | e in AllReported(pending, rounds, stableScans) ::
              IsSteady(e) && e.nbStable >= stableScans && |e.samples| > stableScans
    decreases |rounds|
  {
    hide IsSteady;
    if rounds != [] {
      var seen := Seen(pending, rounds[0]);
      ReportedIsStable(pending, seen, stableScans);
      SteadyReports(StillPending(pending, seen, stableScans), rounds[1..], stableScans);
    }
  }

  /** From the first samples on, whatever the folder does in between: nothing is reported
      that was not seen unchanged in that many consecutive rounds. */
  lemma EveryReportIsStable(first: seq<(Name, Stat)>, rounds: seq<map<Name, Stat>>, stableScans: nat)
    ensures var pending := seq(|first|, i requires 0 <= i < |first| => FirstSample(first[i].0, first[i].1));
            forall e | e in AllReported(pending, rounds, stableScans) ::
              IsSteady(e) && e.nbStable >= stableScans && |e.samples| > stableScans
  {
    var pending := seq(|first|, i requires 0 <= i < |first| => FirstSample(first[i].0, first[i].1));
    SteadyReports(pending, rounds, stableScans);
  }

  // ---- Nothing that has settled is passed over ----

  /** The last `k + 1` samples are there and the same. */
  predicate Stable(samples: seq<Stat>, k: nat) {
    |samples| > k && forall i | |samples| - 1 - k <= i < |samples| :: samples[i] == samples[|samples| - 1]
  }

  /** The count of equal samples is right: one more would be one too many. */
  predicate Counts(e: Entry) {
    && IsSteady(e)
    && (|e.samples| == e.nbStable + 1 || e.samples[|e.samples| - e.nbStable - 2] != e.last)
  }

  lemma CountIsRight(e: Entry, k: nat)
    requires Counts(e)
    ensures e.nbStable >= k <==> Stable(e.samples, k)
  {
  }

  lemma SampleKeepsCount(e: Entry, stat: Stat)
    requires Counts(e)
    ensures Counts(Sampled(e, stat)) && Sampled(e, stat).name == e.name
    ensures Sampled(e, stat).samples == e.samples + [stat]
  {
  }

  /** This entry is that one, with one more sample. */
  predicate IsResample(r: Entry, e: Entry, seen: Option<Stat>) {
    seen.Some? && r.name == e.name && r.samples == e.samples + [seen.value]
  }

  predicate IsFrom(r: Entry, pending: seq<Entry>, seen: seq<Option<Stat>>)
    requires |pending| == |seen|
  {
    exists i :: 0 <= i < |pending| && IsResample(r, pending[i], seen[i])
  }

  lemma FromTail(pending: seq<Entry>, seen: seq<Option<Stat>>, r: Entry)
    requires |pending| == |seen| > 0 && IsFrom(r, pending[1..], seen[1..])
    ensures IsFrom(r, pending, seen)
  {
    hide IsResample;
    var i :| 0 <= i < |pending[1..]| && IsResample(r, pending[1..][i], seen[1..][i]);
    assert IsResample(r, pending[i + 1], seen[i + 1]);
  }

  function HowMany(entries: seq<Entry>, name: Name): nat {
    if entries == [] then 0 else (if entries[0].name == name then 1 else 0) + HowMany(entries[1..], name)
  }

  /** How many of the entries of this name were found in the round. */
  function HowManyFound(pending: seq<Entry>, seen: seq<Option<Stat>>, name: Name): nat
    requires |pending| == |seen|
  {
    if pending == [] then 0 else
      (if pending[0].name == name && seen[0].Some? then 1 else 0) + HowManyFound(pending[1..], seen[1..], name)
  }

  lemma {:induction false} HowManyBoth(a: seq<Entry>, b: seq<Entry>, name: Name)
    ensures HowMany(a + b, name) == HowMany(a, name) + HowMany(b, name)
  {
    if a == [] {
      assert a + b == b;
    } else {
      assert (a + b)[1..] == a[1..] + b;
      HowManyBoth(a[1..], b, name);
    }
  }

  /** A round puts every entry in exactly one place. One that is gone is in neither list.
      One that is there is reported, with its new sample, if and only if that makes as many
      equal samples as are asked for; otherwise it stays, with its new sample. */
  lemma {:induction false} RoundPlacesEach(pending: seq<Entry>, seen: seq<Option<Stat>>, stableScans: nat, i: nat)
    requires |pending| == |seen| && i < |pending| && forall e | e in pending :: Counts(e)
    ensures seen[i].Some? && Stable(pending[i].samples + [seen[i].value], stableScans) ==>
              exists r :: r in Reported(pending, seen, stableScans) && IsResample(r, pending[i], seen[i])
    ensures seen[i].Some? && !Stable(pending[i].samples + [seen[i].value], stableScans) ==>
              exists r :: r in StillPending(pending, seen, stableScans) && IsResample(r, pending[i], seen[i]) && Counts(r)
  {
    hide Counts, Stable;
    assert pending[0] in pending;
    if i == 0 {
      if seen[0].Some? {
        var r := Sampled(pending[0], seen[0].value);
        SampleKeepsCount(pending[0], seen[0].value);
        CountIsRight(r, stableScans);
        assert IsResample(r, pending[0], seen[0]);
      }
    } else {
      RoundPlacesEach(pending[1..], seen[1..], stableScans, i - 1);
    }
  }

  /** Nothing else is in either list. */
  lemma {:induction false} RoundInventsNone(pending: seq<Entry>, seen: seq<Option<Stat>>, stableScans: nat)
    requires |pending| == |seen| && forall e | e in pending :: Counts(e)
    ensures forall r | r in Reported(pending, seen, stableScans) ::
              Stable(r.samples, stableScans) && IsFrom(r, pending, seen)
    ensures forall r | r in StillPending(pending, seen, stableScans) ::
              Counts(r) && !Stable(r.samples, stableScans) && IsFrom(r, pending, seen)
    ensures forall name :: HowMany(StillPending(pending, seen, stableScans), name)
                           + HowMany(Reported(pending, seen, stableScans), name) == HowManyFound(pending, seen, name)
  {
    hide Counts, Stable, IsResample, IsSteady;
    if pending != [] {
      assert pending[0] in pending;
      var later, reported := StillPending(pending[1..], seen[1..], stableScans), Reported(pending[1..], seen[1..], stableScans);
      RoundInventsNone(pending[1..], seen[1..], stableScans);
      if seen[0].Some? {
        var f := Sampled(pending[0], seen[0].value);
        SampleKeepsCount(pending[0], seen[0].value);
        CountIsRight(f, stableScans);
        assert IsResample(f, pending[0], seen[0]) by { ResampleIs(pending[0], seen[0].value); }
        forall name ensures HowMany([f] + later, name) == HowMany([f], name) + HowMany(later, name)
                      ensures HowMany(reported + [f], name) == HowMany(reported, name) + HowMany([f], name) {
          HowManyBoth([f], later, name);
          HowManyBoth(reported, [f], name);
        }
      }
      forall r | r in later + reported ensures IsFrom(r, pending, seen) {
        FromTail(pending, seen, r);
      }
      assert [] + later == later && reported + [] == reported;
    }
  }

  lemma ResampleIs(e: Entry, stat: Stat)
    ensures IsResample(Sampled(e, stat), e, Some(stat))
  {
  }

  /** Whatever keeps its size and time for the rounds it still needs is reported. */
  lemma {:induction false} SettledIsReported(
    pending: seq<Entry>, rounds: seq<map<Name, Stat>>, stableScans: nat, e: Entry)
    requires e in pending && (forall x | x in pending :: Counts(x)) && e.nbStable < stableScans
    requires |rounds| >= stableScans - e.nbStable
    requires forall i | 0 <= i < stableScans - e.nbStable :: e.name in rounds[i] && rounds[i][e.name] == e.last
    ensures exists r :: r in AllReported(pending, rounds, stableScans) && r.name == e.name
    decreases |rounds|
  {
    hide Counts, Stable;
    var seen := Seen(pending, rounds[0]);
    var i :| 0 <= i < |pending| && pending[i] == e;
    assert seen[i] == Some(e.last);
    RoundPlacesEach(pending, seen, stableScans, i);
    RoundInventsNone(pending, seen, stableScans);
    var reported, later := Reported(pending, seen, stableScans), StillPending(pending, seen, stableScans);
    if Stable(e.samples + [e.last], stableScans) {
      var r :| r in reported && IsResample(r, e, seen[i]);
    } else {
      var r :| r in later && IsResample(r, e, seen[i]) && Counts(r);
      ResampledCount(e, r);
      CountIsRight(r, stableScans);
      SettledIsReported(later, rounds[1..], stableScans, r);
    }
  }

  lemma ResampledCount(e: Entry, r: Entry)
    requires Counts(e) && Counts(r) && IsResample(r, e, Some(e.last))
    ensures r.nbStable == e.nbStable + 1 && r.last == e.last && r.name == e.name
  {
    var f := Sampled(e, e.last);
    SampleKeepsCount(e, e.last);
    CountIsRight(f, f.nbStable);
    CountIsRight(r, f.nbStable);
    CountIsRight(f, r.nbStable);
    CountIsRight(r, r.nbStable);
  }

  /** From its first sample on: a path that then keeps its size and time for as many rounds
      as are asked for is reported. */
  lemma EverySettledPathIsReported(first: seq<(Name, Stat)>, rounds: seq<map<Name, Stat>>, stableScans: nat, i: nat)
    requires i < |first| && 0 < stableScans <= |rounds|
    requires forall k | 0 <= k < stableScans :: first[i].0 in rounds[k] && rounds[k][first[i].0] == first[i].1
    ensures var pending := seq(|first|, k requires 0 <= k < |first| => FirstSample(first[k].0, first[k].1));
            exists r :: r in AllReported(pending, rounds, stableScans) && r.name == first[i].0
  {
    var pending := seq(|first|, k requires 0 <= k < |first| => FirstSample(first[k].0, first[k].1));
    var e := pending[i];
    assert e in pending && e == FirstSample(first[i].0, first[i].1);
    SettledIsReported(pending, rounds, stableScans, e);
  }

  /** And no entry is reported more than once. */
  lemma {:induction false} NoneIsReportedTwice(
    pending: seq<Entry>, rounds: seq<map<Name, Stat>>, stableScans: nat, name: Name)
    requires forall e | e in pending :: Counts(e)
    ensures HowMany(AllReported(pending, rounds, stableScans), name) <= HowMany(pending, name)
    decreases |rounds|
  {
    hide Counts;
    if rounds != [] {
      var seen := Seen(pending, rounds[0]);
      RoundInventsNone(pending, seen, stableScans);
      FoundAtMostAll(pending, seen, name);
      var reported, later := Reported(pending, seen, stableScans), StillPending(pending, seen, stableScans);
      NoneIsReportedTwice(later, rounds[1..], stableScans, name);
      HowManyBoth(reported, AllReported(later, rounds[1..], stableScans), name);
    }
  }

  lemma {:induction false} FoundAtMostAll(pending: seq<Entry>, seen: seq<Option<Stat>>, name: Name)
    requires |pending| == |seen|
    ensures HowManyFound(pending, seen, name) <= HowMany(pending, name)
  {
    if pending != [] {
      FoundAtMostAll(pending[1..], seen[1..], name);
    }
  }

  // ---- Reservations ----

  /** `own` are the names whose present file was put there by ngPost itself. While a scan
      runs, `scan` is what it listed and `todo` what it has yet to look at. */
  datatype Folder = Folder(
    present: set<Name>, own: set<Name>, ignored: set<Name>, previousScan: set<Name>,
    scanning: bool, scan: set<Name>, todo: set<Name>, pending: set<Name>, reported: seq<Name>)

  datatype Action =
    | UserDrops(name: Name)
    | FileLeaves(name: Name)
    | OwnRename(name: Name)
    | OwnFileLeaves(name: Name)
    | RestoreFails(name: Name)
    | ScanStarts
    | Check(name: Name)
    | Vanishes(name: Name)
    | Report(name: Name)
    | ScanEnds

  predicate Enabled(f: Folder, a: Action) {
    match a
    case UserDrops(n) => n !in f.present
    case FileLeaves(n) => n in f.present
    case OwnRename(n) => n !in f.present
    case OwnFileLeaves(n) => n in f.present
    case RestoreFails(n) => true
    case ScanStarts => !f.scanning
    case Check(n) => f.scanning && n in f.todo
    case Vanishes(n) => f.scanning && n in f.pending && n !in f.present
    case Report(n) => f.scanning && f.todo == {} && n in f.pending && n in f.present
    case ScanEnds => f.scanning && f.todo == {} && f.pending == {}
  }

  function Next(f: Folder, a: Action): Folder {
    if !Enabled(f, a) then f else
      match a
      case UserDrops(n) => f.(present := f.present + {n})
      case FileLeaves(n) => f.(present := f.present - {n}, own := f.own - {n})
      // Reserved, then renamed: one step for the monitor's thread.
      case OwnRename(n) => f.(present := f.present + {n}, own := f.own + {n}, ignored := f.ignored + {n})
      case OwnFileLeaves(n) => f.(present := f.present - {n}, own := f.own - {n}, ignored := f.ignored - {n})
      case RestoreFails(n) => f.(ignored := f.ignored - {n})
      case ScanStarts => f.(scanning := true, scan := f.present, todo := f.present - f.previousScan, pending := {})
      case Check(n) =>
        if n in f.ignored then f.(todo := f.todo - {n}, ignored := f.ignored - {n})
        else if n !in f.present then f.(todo := f.todo - {n})
        else f.(todo := f.todo - {n}, pending := f.pending + {n})
      case Vanishes(n) => f.(pending := f.pending - {n})
      case Report(n) => f.(pending := f.pending - {n}, reported := f.reported + [n])
      // A reservation whose name the scan saw is spent.
      case ScanEnds => f.(scanning := false, ignored := f.ignored - f.scan, previousScan := f.scan)
  }

  function After(f: Folder, actions: seq<Action>): Folder {
    if actions == [] then f else Next(After(f, actions[..|actions| - 1]), actions[|actions| - 1])
  }

  /** What will be the baseline of the next scan. */
  function Baseline(f: Folder): set<Name> { if f.scanning then f.scan else f.previousScan }

  /** What holds whatever happens. */
  ghost predicate Shaped(f: Folder) {
    && f.own <= f.present
    && (f.scanning ==> f.todo <= f.scan && f.pending <= f.scan && f.todo !! f.pending)
    && (!f.scanning ==> f.pending == {} && f.todo == {})
  }

  /** Reserved, or already part of the baseline and out of reach of the scan that is
      running. */
  ghost predicate Protected(f: Folder, n: Name) {
    && n !in f.pending
    && (n in f.ignored || (n in Baseline(f) && (f.scanning ==> n !in f.todo)))
  }

  /** Every file of ngPost's own is protected. */
  ghost predicate Inv(f: Folder) { Shaped(f) && forall n | n in f.own :: Protected(f, n) }

  /** ngPost renames a file to a name that the monitor is sampling just then. */
  predicate RenamesUnderSampling(f: Folder, a: Action) {
    a.OwnRename? && Enabled(f, a) && a.name in f.pending
  }

  /** A restore fails because ngPost's own file is already there, and takes the only
      protection of that file away. */
  predicate DropsProtection(f: Folder, a: Action) {
    && a.RestoreFails? && a.name in f.own
    && (a.name !in Baseline(f) || (f.scanning && a.name in f.todo))
  }

  /** A step keeps every file of ngPost's own out of reach, if and only if it is neither. */
  lemma StepKeepsInvIff(f: Folder, a: Action)
    requires Inv(f)
    ensures Inv(Next(f, a)) <==> !RenamesUnderSampling(f, a) && !DropsProtection(f, a)
  {
    if RenamesUnderSampling(f, a) {
      assert a.name in Next(f, a).own && a.name in Next(f, a).pending;
    }
    if DropsProtection(f, a) {
      assert a.name in Next(f, a).own && a.name !in Next(f, a).ignored;
    }
  }

  /** What is reported is never a file that ngPost put there itself. */
  lemma OwnIsNotReported(f: Folder, n: Name)
    requires Inv(f) && Enabled(f, Report(n))
    ensures n !in f.own
  {
  }

  lemma {:induction false} RunsKeepInv(f: Folder, actions: seq<Action>)
    requires Inv(f)
    requires forall i | 0 <= i < |actions| ::
               var g := After(f, actions[..i]); !RenamesUnderSampling(g, actions[i]) && !DropsProtection(g, actions[i])
    ensures Inv(After(f, actions))
  {
    if actions != [] {
      var init := actions[..|actions| - 1];
      assert forall i | 0 <= i < |init| :: init[..i] == actions[..i];
      RunsKeepInv(f, init);
      hide Inv, Next, RenamesUnderSampling, DropsProtection;
      StepKeepsInvIff(After(f, init), actions[|actions| - 1]);
    }
  }

  /** On every run without such steps: a rename of ngPost's own, interleaved anywhere with
      the scans, is never posted while its file is there. */
  lemma OwnRenamesAreNeverPosted(f: Folder, actions: seq<Action>, n: Name)
    requires Inv(f) && Enabled(After(f, actions), Report(n))
    requires forall i | 0 <= i < |actions| ::
               var g := After(f, actions[..i]); !RenamesUnderSampling(g, actions[i]) && !DropsProtection(g, actions[i])
    ensures n !in After(f, actions).own
  {
    RunsKeepInv(f, actions);
    OwnIsNotReported(After(f, actions), n);
  }

  // ---- Exactly these steps lead to a post ----

  predicate ByMonitor(a: Action) { a.ScanStarts? || a.Check? || a.Vanishes? || a.Report? || a.ScanEnds? }

  /** After these actions of the monitor it can report a file of ngPost's own. */
  ghost predicate Posts(f: Folder, actions: seq<Action>, n: Name) {
    && (forall a | a in actions :: ByMonitor(a))
    && Enabled(After(f, actions), Report(n)) && n in After(f, actions).own
  }

  ghost predicate CanPostOwn(f: Folder) { exists actions, n :: Posts(f, actions, n) }

  lemma {:induction false} AfterBoth(f: Folder, first: seq<Action>, second: seq<Action>)
    ensures After(f, first + second) == After(After(f, first), second)
  {
    if second == [] {
      assert first + second == first;
    } else {
      var init := second[..|second| - 1];
      assert (first + second)[..|first + second| - 1] == first + init;
      AfterBoth(f, first, init);
    }
  }

  lemma AfterOne(f: Folder, a: Action)
    ensures After(f, [a]) == Next(f, a)
  {
    assert [a][..0] == [];
    assert After(f, []) == f;
  }

  /** The same scan, further on. */
  ghost predicate SameScan(f: Folder, g: Folder) {
    && g.present == f.present && g.own == f.own && g.ignored <= f.ignored
    && g.previousScan == f.previousScan && g.scanning == f.scanning && g.scan == f.scan
  }

  /** The scan looks at all it has yet to look at. */
  lemma {:induction false} LooksAtAll(f: Folder) returns (actions: seq<Action>)
    requires f.scanning
    ensures forall a | a in actions :: ByMonitor(a)
    ensures var g := After(f, actions); SameScan(f, g) && g.todo == {} && f.pending <= g.pending
    decreases |f.todo|
  {
    actions := [];
    if f.todo != {} {
      var n :| n in f.todo;
      var rest := LooksAtAll(Next(f, Check(n)));
      actions := [Check(n)] + rest;
      AfterOne(f, Check(n));
      AfterBoth(f, [Check(n)], rest);
    }
  }

  /** Every pending file settles or is gone. */
  lemma {:induction false} SettlesAll(f: Folder) returns (actions: seq<Action>)
    requires f.scanning && f.todo == {}
    ensures forall a | a in actions :: ByMonitor(a)
    ensures var g := After(f, actions); SameScan(f, g) && g.todo == g.pending == {}
    decreases |f.pending|
  {
    actions := [];
    if f.pending != {} {
      var n :| n in f.pending;
      var a := if n in f.present then Report(n) else Vanishes(n);
      var rest := SettlesAll(Next(f, a));
      actions := [a] + rest;
      AfterOne(f, a);
      AfterBoth(f, [a], rest);
    }
  }

  lemma PostsLater(f: Folder, first: seq<Action>, second: seq<Action>, n: Name)
    requires (forall a | a in first :: ByMonitor(a)) && Posts(After(f, first), second, n)
    ensures Posts(f, first + second, n)
  {
    AfterBoth(f, first, second);
  }

  /** What is being sampled can be reported. */
  lemma SampledPosts(f: Folder, n: Name) returns (actions: seq<Action>)
    requires f.scanning && n in f.pending && n in f.own && n in f.present
    ensures Posts(f, actions, n)
  {
    actions := LooksAtAll(f);
  }

  /** What the scan has yet to look at, unreserved, can be reported. */
  lemma SeenPosts(f: Folder, n: Name) returns (actions: seq<Action>)
    requires f.scanning && n in f.todo && n !in f.ignored && n in f.own && n in f.present
    ensures Posts(f, actions, n)
  {
    var rest := SampledPosts(Next(f, Check(n)), n);
    AfterOne(f, Check(n));
    PostsLater(f, [Check(n)], rest, n);
    actions := [Check(n)] + rest;
  }

  /** So can what the next scan finds new. */
  lemma NewPosts(f: Folder, n: Name) returns (actions: seq<Action>)
    requires !f.scanning && n !in f.previousScan && n !in f.ignored && n in f.own && n in f.present
    ensures Posts(f, actions, n)
  {
    var rest := SeenPosts(Next(f, ScanStarts), n);
    AfterOne(f, ScanStarts);
    PostsLater(f, [ScanStarts], rest, n);
    actions := [ScanStarts] + rest;
  }

  /** The scan that is running can always end. */
  lemma ScanCanEnd(f: Folder) returns (actions: seq<Action>)
    requires f.scanning
    ensures forall a | a in actions :: ByMonitor(a)
    ensures var g := After(f, actions);
            !g.scanning && g.previousScan == f.scan && g.present == f.present && g.own == f.own && g.ignored <= f.ignored
  {
    var looks := LooksAtAll(f);
    var g := After(f, looks);
    var settles := SettlesAll(g);
    AfterBoth(f, looks, settles);
    AfterBoth(f, looks + settles, [ScanEnds]);
    AfterOne(After(f, looks + settles), ScanEnds);
    actions := looks + settles + [ScanEnds];
  }

  lemma UnprotectedPosts(f: Folder, n: Name) returns (actions: seq<Action>)
    requires Shaped(f) && n in f.own && !Protected(f, n)
    ensures Posts(f, actions, n)
  {
    if n in f.pending {
      actions := SampledPosts(f, n);
    } else if f.scanning && n in f.todo {
      actions := SeenPosts(f, n);
    } else if f.scanning {
      var first := ScanCanEnd(f);
      var second := NewPosts(After(f, first), n);
      PostsLater(f, first, second, n);
      actions := first + second;
    } else {
      actions := NewPosts(f, n);
    }
  }

  lemma {:induction false} MonitorKeepsInv(f: Folder, actions: seq<Action>)
    requires Inv(f) && forall a | a in actions :: ByMonitor(a)
    ensures Inv(After(f, actions))
  {
    forall i | 0 <= i < |actions|
      ensures var g := After(f, actions[..i]); !RenamesUnderSampling(g, actions[i]) && !DropsProtection(g, actions[i])
    {
      assert actions[i] in actions;
    }
    RunsKeepInv(f, actions);
  }

  /** The monitor alone can go on to report a file of ngPost's own, if and only if one of
      them is not protected. */
  lemma CanPostOwnIff(f: Folder)
    requires Shaped(f)
    ensures CanPostOwn(f) <==> !Inv(f)
  {
    hide Protected;
    if Inv(f) {
      forall actions, n | Posts(f, actions, n) ensures false {
        MonitorKeepsInv(f, actions);
        OwnIsNotReported(After(f, actions), n);
      }
    } else {
      var n :| n in f.own && !Protected(f, n);
      var actions := UnprotectedPosts(f, n);
    }
  }

  lemma StepKeepsShape(f: Folder, a: Action)
    requires Shaped(f)
    ensures Shaped(Next(f, a))
  {
  }

  /** After a step the monitor alone can go on to report a file of ngPost's own, if and
      only if the step is one of the two. */
  lemma StepLetsPostIff(f: Folder, a: Action)
    requires Inv(f)
    ensures CanPostOwn(Next(f, a)) <==> RenamesUnderSampling(f, a) || DropsProtection(f, a)
  {
    hide CanPostOwn, RenamesUnderSampling, DropsProtection, Next, Protected;
    StepKeepsShape(f, a);
    StepKeepsInvIff(f, a);
    CanPostOwnIff(Next(f, a));
  }

  lemma AfterFirst(f: Folder, actions: seq<Action>, k: nat)
    requires k < |actions|
    ensures After(f, actions[..k + 1]) == Next(After(f, actions[..k]), actions[k])
    ensures k + 1 == |actions| ==> actions[..k + 1] == actions
  {
    assert actions[..k + 1][..k] == actions[..k];
  }

  const EMPTY: Folder := Folder({}, {}, {}, {}, false, {}, {}, {}, [])

  /** A file is dropped and being sampled; it leaves, and ngPost renames one of its own to
      that name. */
  lemma RenameUnderSamplingIsPosted(n: Name)
    ensures var g := After(EMPTY, [UserDrops(n), ScanStarts, Check(n), FileLeaves(n), OwnRename(n)]);
            Enabled(g, Report(n)) && n in g.own
  {
    var run := [UserDrops(n), ScanStarts, Check(n), FileLeaves(n), OwnRename(n)];
    AfterFirst(EMPTY, run, 4);
    AfterFirst(EMPTY, run, 3);
    AfterFirst(EMPTY, run, 2);
    AfterFirst(EMPTY, run, 1);
    AfterFirst(EMPTY, run, 0);
  }

  /** One job restores its file; the restore of another to the same path fails, and takes
      the reservation of the first away. */
  lemma LostReservationIsPosted(n: Name)
    ensures var g := After(EMPTY, [OwnRename(n), RestoreFails(n), ScanStarts, Check(n)]);
            Enabled(g, Report(n)) && n in g.own
  {
    var run := [OwnRename(n), RestoreFails(n), ScanStarts, Check(n)];
    AfterFirst(EMPTY, run, 3);
    AfterFirst(EMPTY, run, 2);
    AfterFirst(EMPTY, run, 1);
    AfterFirst(EMPTY, run, 0);
  }

  /** A scan looks at exactly what is new to it. What it looks at is passed over, once, if it
      is reserved, sampled from then on if it is there, and dropped otherwise; it is over
      once everything is looked at and settled, and is the baseline of the next one. */
  lemma ScanIff(f: Folder, n: Name)
    requires Shaped(f)
    ensures !f.scanning ==>
              var g := Next(f, ScanStarts);
              g.scanning && g.scan == f.present && (n in g.todo <==> n in f.present && n !in f.previousScan)
    ensures f.scanning && n in f.todo ==>
              var g := Next(f, Check(n));
              && n !in g.todo && n !in g.ignored && g.present == f.present
              && (n in g.pending <==> n !in f.ignored && n in f.present)
    ensures f.scanning && n in f.pending && f.todo == {} ==>
              && (n in f.present ==> Next(f, Report(n)).reported == f.reported + [n] && n !in Next(f, Report(n)).pending)
              && (n !in f.present ==> Next(f, Vanishes(n)).reported == f.reported && n !in Next(f, Vanishes(n)).pending)
    ensures f.scanning && f.todo != {} ==> Next(f, Report(n)) == f
    ensures !Next(f, ScanEnds).scanning <==> !f.scanning || (f.todo == {} && f.pending == {})
  {
  }

  /** ngPost reserves the name of a file before it appears under it, and takes the
      reservation back when the file leaves, or never came. */
  lemma ReservedIff(f: Folder, n: Name)
    ensures n !in f.present ==> n in Next(f, OwnRename(n)).ignored && n in Next(f, OwnRename(n)).own
    ensures n in f.present ==> n !in Next(f, OwnFileLeaves(n)).ignored && n !in Next(f, OwnFileLeaves(n)).present
    ensures n !in Next(f, RestoreFails(n)).ignored
    ensures Next(f, UserDrops(n)).ignored == Next(f, FileLeaves(n)).ignored == f.ignored
  {
  }

  // ---- Over the runs of one scan ----

  lemma {:induction false} ScanIsKept(f: Folder, actions: seq<Action>)
    requires f.scanning && forall a | a in actions :: !a.ScanEnds?
    ensures After(f, actions).scanning && After(f, actions).scan == f.scan
  {
    if actions != [] {
      assert actions[|actions| - 1] in actions;
      ScanIsKept(f, actions[..|actions| - 1]);
    }
  }

  /** Whatever happens while a scan runs, no reservation of a name that was there when it
      started outlives it, and what was there is the next baseline. */
  lemma ReservationsAreSpent(f: Folder, actions: seq<Action>)
    requires !f.scanning && forall a | a in actions :: !a.ScanEnds?
    requires Enabled(After(Next(f, ScanStarts), actions), ScanEnds)
    ensures var g := Next(After(Next(f, ScanStarts), actions), ScanEnds);
            g.ignored !! f.present && g.previousScan == f.present && !g.scanning
  {
    ScanIsKept(Next(f, ScanStarts), actions);
  }

  /** Nothing but the monitor concerns itself with this name. */
  predicate LeavesAlone(a: Action, n: Name) {
    a != FileLeaves(n) && a != OwnFileLeaves(n) && a != OwnRename(n)
  }

  /** A file that is there and not reserved is not seen yet, or about to be reported, or
      reported. */
  predicate OnItsWay(f: Folder, n: Name) {
    && n in f.present && n !in f.ignored
    && (|| n !in Baseline(f)
        || (f.scanning && (n in f.todo || n in f.pending))
        || n in f.reported)
    && (f.scanning ==> f.todo <= f.scan)
  }

  lemma {:induction false} DropStaysOnItsWay(f: Folder, actions: seq<Action>, n: Name)
    requires OnItsWay(f, n) && forall a | a in actions :: LeavesAlone(a, n)
    ensures OnItsWay(After(f, actions), n)
  {
    if actions != [] {
      assert actions[|actions| - 1] in actions;
      DropStaysOnItsWay(f, actions[..|actions| - 1], n);
    }
  }

  /** No drop is lost: a file that the user puts there under a name that is new and not
      reserved, and then leaves alone, has been reported once a scan that saw it is over. */
  lemma DropsAreReported(f: Folder, actions: seq<Action>, n: Name)
    requires Inv(f) && n !in f.present && n !in Baseline(f) && n !in f.ignored
    requires forall a | a in actions :: LeavesAlone(a, n)
    ensures var g := After(Next(f, UserDrops(n)), actions);
            !g.scanning && n in g.previousScan ==> n in g.reported
  {
    DropStaysOnItsWay(Next(f, UserDrops(n)), actions, n);
  }

  // ---- The reservations themselves ----

  function Child(folder: string, name: Name): string { folder + "/" + name }

  predicate IsUnder(path: string, folder: string) {
    |path| > |folder| && path[..|folder| + 1] == folder + "/"
  }

  /** The reserved paths, shared with the thread that renames files. */
  class Reservations {
    var ignoredPaths: set<string>

    constructor ()
      ensures ignoredPaths == {}
    {
      ignoredPaths := {};
    }

    method IgnoreNextAppearance(path: string)
      modifies this
      ensures ignoredPaths == old(ignoredPaths) + {path}
    {
      ignoredPaths := ignoredPaths + {path};
    }

    method ConsumeIgnoredPath(path: string) returns (consumed: bool)
      modifies this
      ensures consumed <==> path in old(ignoredPaths)
      ensures ignoredPaths == old(ignoredPaths) - {path}
    {
      consumed := path in ignoredPaths;
      ignoredPaths := ignoredPaths - {path};
    }

    /** Drops the reservations of the direct children of the folder that the scan saw,
        and no other: those of its subfolders, and of names it did not see, remain. */
    method ReleaseSpentReservations(folder: string, scan: set<Name>)
      requires forall n | n in scan :: '/' !in n
      modifies this
      ensures ignoredPaths == old(ignoredPaths) - (set n | n in scan :: Child(folder, n))
    {
      ghost var spent := set n | n in scan :: Child(folder, n);
      var todo := ignoredPaths;
      while todo != {}
        invariant ignoredPaths <= old(ignoredPaths) && todo <= ignoredPaths
        invariant old(ignoredPaths) - spent <= ignoredPaths
        invariant forall p | p in ignoredPaths && p in spent :: p in todo
        decreases |todo|
      {
        var path :| path in todo;
        if IsUnder(path, folder) {
          var name := path[|folder| + 1..];
          assert path == Child(folder, name);
          if '/' !in name && name in scan {
            ignoredPaths := ignoredPaths - {path};
          }
        }
        SpentIsUnder(folder, scan, path);
        todo := todo - {path};
      }
    }
  }

  lemma SpentIsUnder(folder: string, scan: set<Name>, path: string)
    requires forall n | n in scan :: '/' !in n
    ensures path in (set n | n in scan :: Child(folder, n))
       <==> IsUnder(path, folder) && path[|folder| + 1..] in scan && '/' !in path[|folder| + 1..]
  {
    if IsUnder(path, folder) {
      assert path == Child(folder, path[|folder| + 1..]);
    }
    if n :| n in scan && path == Child(folder, n) {
      assert path[|folder| + 1..] == n;
    }
  }
}
