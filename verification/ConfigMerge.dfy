/** Saving the configuration over a file that was edited meanwhile (src/NgPost.cpp,
    _mergeExternalConfigEdits): what ngPost believes the file says, what the file says,
    and what ngPost holds. */
module ConfigMerge {
  import opened Options
  import opened ConfigText
  import opened ConfigEdit

  /** `known` are the settings ngPost reads. `adopts` tells which values it can take
      while running; an empty value stands for a line commented out. */
  datatype Program = Program(keys: Keys, known: set<string>, adopts: (string, string) -> bool)

  /** mine: the text ngPost is about to write. theirs: the file. belief: what it said when
      ngPost last read or wrote it. twice: the settings that the text has on two lines, as
      ngPost writes DISP_Progress when both its displays are on. */
  datatype Sides = Sides(
    mine: map<string, string>, theirs: map<string, string>, belief: map<string, string>, twice: set<string>)

  function Get(m: map<string, string>, key: string): Option<string> {
    if key in m then Some(m[key]) else None
  }

  function ValueOf(m: map<string, string>, key: string): string {
    if key in m then m[key] else ""
  }

  predicate DiskChanged(s: Sides, key: string)
    requires key in s.theirs
  {
    key !in s.belief || s.theirs[key] != s.belief[key]
  }

  /** Changed on both sides, to different values. */
  predicate Refused(s: Sides, key: string)
    requires key in s.theirs
  {
    && key in s.belief && ValueOf(s.mine, key) != s.belief[key]
    && ValueOf(s.mine, key) != s.theirs[key]
  }

  /** The line is commented out or deleted in the file, and ngPost can do without it. */
  predicate Cleared(p: Program, s: Sides, key: string) {
    && key in s.belief && key !in s.theirs && key in s.mine && s.mine[key] == s.belief[key]
    && p.adopts(key, "")
  }

  /** The value of the file is written over ngPost's. */
  predicate TakesDisk(p: Program, s: Sides, key: string)
    requires key in s.theirs
  {
    && key !in p.keys.server
    && (if DiskChanged(s, key) then !Refused(s, key) else key !in s.mine && key !in p.known)
  }

  /** The setting in the text that is saved. On two lines, the one that is edited is not
      the one that counts. */
  function Merged(p: Program, s: Sides, key: string): Option<string> {
    if key in s.theirs && TakesDisk(p, s, key) then (if key in s.twice then Get(s.mine, key) else Some(s.theirs[key]))
    else if Cleared(p, s, key) then None
    else Get(s.mine, key)
  }

  /** What ngPost believes of the file afterwards: its own value, unless it took the
      file's or has no use for it. */
  function Believed(p: Program, s: Sides, key: string): Option<string> {
    if key in s.theirs && TakesDisk(p, s, key) && (key !in p.known || p.adopts(key, s.theirs[key]))
    then Some(s.theirs[key])
    else if Cleared(p, s, key) then None
    else Get(s.mine, key)
  }

  /** What ngPost holds afterwards: the values of the file it could adopt, and no more what
      it could clear. */
  function Held(p: Program, s: Sides, key: string): Option<string> {
    if key in s.theirs && TakesDisk(p, s, key) && key in p.known && p.adopts(key, s.theirs[key])
    then Some(s.theirs[key])
    else if Cleared(p, s, key) then None
    else Get(s.mine, key)
  }

  function AllKeys(s: Sides): set<string> { s.mine.Keys + s.theirs.Keys + s.belief.Keys }

  /** The three maps a save leaves. */
  function MergedMap(p: Program, s: Sides): (m: map<string, string>)
    ensures forall k :: Get(m, k) == Merged(p, s, k)
  {
    map k | k in AllKeys(s) && Merged(p, s, k).Some? :: Merged(p, s, k).value
  }

  function BelievedMap(p: Program, s: Sides): (m: map<string, string>)
    ensures forall k :: Get(m, k) == Believed(p, s, k)
  {
    map k | k in AllKeys(s) && Believed(p, s, k).Some? :: Believed(p, s, k).value
  }

  function HeldMap(p: Program, s: Sides): (m: map<string, string>)
    ensures forall k :: Get(m, k) == Held(p, s, k)
  {
    map k | k in AllKeys(s) && Held(p, s, k).Some? :: Held(p, s, k).value
  }

  lemma SameMap(a: map<string, string>, b: map<string, string>)
    requires forall k :: Get(a, k) == Get(b, k)
    ensures a == b
  {
    forall k ensures k in a <==> k in b {
      assert Get(a, k) == Get(b, k);
    }
    forall k | k in a ensures a[k] == b[k] {
      assert Get(a, k) == Get(b, k);
    }
  }

  // ---- The merge of the text ----

  /** The settings a text has on more than one line. */
  function TwiceWritten(text: seq<string>): (keys: set<string>)
    ensures forall k :: k in keys <==> Times(Top(text), k) > 1
  {
    var top := Top(text);
    assert forall k | Times(top, k) > 1 :: k in KeysOn(top) by {
      forall k | Times(top, k) > 1 ensures k in KeysOn(top) {
        StandsSomewhere(top, k);
      }
    }
    set k | k in KeysOn(top) && Times(top, k) > 1
  }

  function KeysOn(lines: seq<string>): set<string> {
    set line | line in lines && Parse(line).Pair? :: Parse(line).key
  }

  lemma {:induction false} StandsSomewhere(lines: seq<string>, key: string)
    requires Times(lines, key) > 0
    ensures key in KeysOn(lines)
  {
    hide Parse;
    if HasKey(lines[0], key) {
      assert lines[0] in lines;
    } else {
      StandsSomewhere(lines[1..], key);
    }
  }

  /** A text as ngPost writes it: no settings below the sections, and none but one-line
      examples, of keys that do not look like sections, above them. */
  ghost predicate Written(keys: Keys, text: seq<string>, header: string) {
    && Tidy(text, header)
    && (forall k :: SetsNo(keys, Settings, Bottom(text), k))
    && forall k :: k != "" && k[0] == '[' ==> NoExample(Top(text), k)
  }

  /** The text still has this key as ngPost wrote it. */
  ghost predicate AsWritten(p: Program, s: Sides, text: seq<string>, k: string) {
    && SetsNo(p.keys, Settings, Bottom(text), k)
    && (Times(Top(text), k) > 1 <==> k in s.twice)
    && (k != "" && k[0] == '[' ==> NoExample(Top(text), k))
  }

  /** The settings already looked at are as they shall be, the others still ngPost's. */
  ghost predicate SoFar(m: map<string, string>, mine: map<string, string>, goal: map<string, string>, seen: set<string>) {
    forall k :: Get(m, k) == if k in seen then Get(goal, k) else Get(mine, k)
  }

  lemma OneMoreSeen(
    m: map<string, string>, m': map<string, string>, mine: map<string, string>, goal: map<string, string>,
    seen: set<string>, key: string)
    requires SoFar(m, mine, goal, seen) && Get(m', key) == Get(goal, key)
    requires forall k | k != key :: Get(m', k) == Get(m, k)
    ensures SoFar(m', mine, goal, seen + {key})
  {
  }

  lemma AllSeen(m: map<string, string>, mine: map<string, string>, goal: map<string, string>, seen: set<string>)
    requires SoFar(m, mine, goal, seen) && forall k | k !in seen :: Get(goal, k) == Get(mine, k)
    ensures m == goal
  {
    forall k ensures Get(m, k) == Get(goal, k) {
    }
    SameMap(m, goal);
  }

  /** A setting of neither side is what ngPost writes. */
  lemma MergedElsewhere(p: Program, s: Sides)
    ensures forall k | k !in s.theirs && k !in s.belief ::
              Merged(p, s, k) == Believed(p, s, k) == Held(p, s, k) == Get(s.mine, k)
  {
  }

  /** The text being saved, and the two maps that go with it. */
  datatype Progress = Progress(text: seq<string>, believed: map<string, string>, memory: map<string, string>)

  ghost predicate MergedSoFar(p: Program, s: Sides, g: Progress, text: seq<string>, header: string, seen: set<string>) {
    && SoFar(TopLevelSettings(p.keys, g.text), s.mine, MergedMap(p, s), seen)
    && SoFar(g.believed, s.mine, BelievedMap(p, s), seen)
    && SoFar(g.memory, s.mine, HeldMap(p, s), seen)
    && SectionLines(p.keys, g.text) == SectionLines(p.keys, text)
    && Tidy(g.text, header)
    && forall k | k !in seen :: AsWritten(p, s, g.text, k)
  }

  /** One setting is settled and nothing else has changed. */
  ghost predicate Settles(p: Program, s: Sides, g: Progress, g': Progress, header: string, key: string) {
    && Get(TopLevelSettings(p.keys, g'.text), key) == Merged(p, s, key)
    && Get(g'.believed, key) == Believed(p, s, key) && Get(g'.memory, key) == Held(p, s, key)
    && (forall k | k != key ::
          && Get(TopLevelSettings(p.keys, g'.text), k) == Get(TopLevelSettings(p.keys, g.text), k)
          && Get(g'.believed, k) == Get(g.believed, k) && Get(g'.memory, k) == Get(g.memory, k))
    && SectionLines(p.keys, g'.text) == SectionLines(p.keys, g.text)
    && Tidy(g'.text, header)
    && forall k | k != key && AsWritten(p, s, g.text, k) :: AsWritten(p, s, g'.text, k)
  }

  lemma OneMoreSettled(
    p: Program, s: Sides, g: Progress, g': Progress, text: seq<string>, header: string, seen: set<string>, key: string)
    requires MergedSoFar(p, s, g, text, header, seen) && Settles(p, s, g, g', header, key)
    ensures MergedSoFar(p, s, g', text, header, seen + {key})
  {
    hide SoFar, AsWritten, Tidy, TopLevelSettings, SectionLines, Merged, Believed, Held, Get;
    OneMoreSeen(TopLevelSettings(p.keys, g.text), TopLevelSettings(p.keys, g'.text), s.mine, MergedMap(p, s), seen, key);
    OneMoreSeen(g.believed, g'.believed, s.mine, BelievedMap(p, s), seen, key);
    OneMoreSeen(g.memory, g'.memory, s.mine, HeldMap(p, s), seen, key);
  }

  /** Folds the edits of the file into the text ngPost is about to write. Every setting of
      the result is the merged one, its sections are ngPost's own, and the belief that is
      returned is the one the next save needs; what could be adopted is held from now on.
      Without a file that was read before there is nothing to fold in. */
  method MergeExternalConfigEdits(
    p: Program, text: seq<string>, disk: Option<seq<string>>, belief: map<string, string>, header: string)
    returns (r: Progress)
    requires IsComment(header) && Written(p.keys, text, header) && forall k | k in belief :: IsKey(k)
    ensures disk.Some? && belief != map[] ==>
              var s := Sides(TopLevelSettings(p.keys, text), TopLevelSettings(p.keys, disk.value), belief, TwiceWritten(text));
              && TopLevelSettings(p.keys, r.text) == MergedMap(p, s)
              && r.believed == BelievedMap(p, s) && r.memory == HeldMap(p, s)
    ensures disk.None? || belief == map[] ==>
              r == Progress(text, TopLevelSettings(p.keys, text), TopLevelSettings(p.keys, text))
    ensures SectionLines(p.keys, r.text) == SectionLines(p.keys, text)
  {
    hide IsKey, IsValue, IsComment, AsWritten, Written, TopLevelSettings, SectionLines, Merged, Believed, Held, SoFar;
    var mine := TopLevelSettings(p.keys, text);
    r := Progress(text, mine, mine);
    if belief == map[] || disk.None? {
      return;
    }
    var theirs := TopLevelSettings(p.keys, disk.value);
    ghost var s := Sides(mine, theirs, belief, TwiceWritten(text));
    NothingSeen(p, s, r, header);
    ParsedSettings(p.keys, disk.value);
    MergedElsewhere(p, s);
    r := TakeEdits(p, s, r, mine, theirs, belief, header);
    r := ClearDeleted(p, s, r, text, mine, theirs, belief, header);
    ghost var seen := theirs.Keys + belief.Keys;
    AllSeen(TopLevelSettings(p.keys, r.text), mine, MergedMap(p, s), seen);
    AllSeen(r.believed, mine, BelievedMap(p, s), seen);
    AllSeen(r.memory, mine, HeldMap(p, s), seen);
  }

  lemma ParsedSettings(keys: Keys, lines: seq<string>)
    ensures var m := TopLevelSettings(keys, lines); forall k | k in m :: IsKey(k) && IsValue(m[k])
  {
    hide IsKey, IsValue;
    SettingsArePairs(keys, AT_START, lines);
  }

  lemma NothingSeen(p: Program, s: Sides, g: Progress, header: string)
    requires s.mine == TopLevelSettings(p.keys, g.text) == g.believed == g.memory
    requires Written(p.keys, g.text, header) && s.twice == TwiceWritten(g.text)
    ensures MergedSoFar(p, s, g, g.text, header, {})
  {
    hide TopLevelSettings, SetsNo, NoExample, Tidy, Top, Bottom;
  }

  method TakeEdits(
    p: Program, ghost s: Sides, start: Progress, mine: map<string, string>, theirs: map<string, string>,
    belief: map<string, string>, header: string)
    returns (r: Progress)
    requires mine == s.mine && theirs == s.theirs && belief == s.belief
    requires MergedSoFar(p, s, start, start.text, header, {}) && IsComment(header)
    requires forall k | k in theirs :: IsKey(k) && IsValue(theirs[k])
    ensures MergedSoFar(p, s, r, start.text, header, theirs.Keys)
  {
    hide IsKey, IsValue, IsComment, MergedSoFar, Settles, TopLevelSettings, AsWritten;
    r := start;
    var left := theirs.Keys;
    ghost var seen: set<string> := {};
    while left != {}
      invariant left <= theirs.Keys && seen == theirs.Keys - left
      invariant MergedSoFar(p, s, r, start.text, header, seen)
      decreases |left|
    {
      var key :| key in left;
      StillMine(p, s, r, start.text, header, seen, key);
      ghost var before := r;
      r := TakeOne(p, s, r, mine, theirs, belief, key, header);
      OneMoreSettled(p, s, before, r, start.text, header, seen, key);
      left := left - {key};
      seen := seen + {key};
    }
    assert seen == theirs.Keys;
  }

  lemma StillMine(
    p: Program, s: Sides, g: Progress, text: seq<string>, header: string, seen: set<string>, key: string)
    requires MergedSoFar(p, s, g, text, header, seen) && key !in seen
    ensures Get(TopLevelSettings(p.keys, g.text), key) == Get(s.mine, key)
    ensures Get(g.believed, key) == Get(s.mine, key) == Get(g.memory, key)
    ensures AsWritten(p, s, g.text, key) && Tidy(g.text, header)
  {
    hide TopLevelSettings, SectionLines, AsWritten, Tidy;
  }

  method ClearDeleted(
    p: Program, ghost s: Sides, start: Progress, ghost text: seq<string>, mine: map<string, string>,
    theirs: map<string, string>, belief: map<string, string>, ghost header: string)
    returns (r: Progress)
    requires mine == s.mine && theirs == s.theirs && belief == s.belief
    requires MergedSoFar(p, s, start, text, header, theirs.Keys) && forall k | k in belief :: IsKey(k)
    ensures MergedSoFar(p, s, r, text, header, theirs.Keys + belief.Keys)
  {
    hide IsKey, MergedSoFar, Settles, TopLevelSettings, AsWritten;
    r := start;
    var left := belief.Keys;
    ghost var seen := theirs.Keys;
    while left != {}
      invariant left <= belief.Keys
      invariant forall k :: k in seen <==> k in theirs || (k in belief && k !in left)
      invariant MergedSoFar(p, s, r, text, header, seen)
      decreases |left|
    {
      var key :| key in left;
      left := left - {key};
      if key !in theirs {
        StillMine(p, s, r, text, header, seen, key);
        ghost var before := r;
        r := ClearOne(p, s, r, mine, belief, header, key);
        OneMoreSettled(p, s, before, r, text, header, seen, key);
        seen := seen + {key};
      }
    }
    assert seen == theirs.Keys + belief.Keys;
  }

  lemma OthersAsWritten(p: Program, s: Sides, text: seq<string>, edited: seq<string>, key: string)
    requires forall k | k != key :: Keeps(p.keys, text, edited, k)
    ensures forall k | k != key && AsWritten(p, s, text, k) :: AsWritten(p, s, edited, k)
  {
    hide SetsNo, Times, NoExample, Top, Bottom;
    forall k | k != key && AsWritten(p, s, text, k) ensures AsWritten(p, s, edited, k) {
      assert Keeps(p.keys, text, edited, k);
    }
  }

  /** One setting the file no longer has. */
  method ClearOne(
    p: Program, ghost s: Sides, g: Progress, mine: map<string, string>, belief: map<string, string>,
    ghost header: string, key: string)
    returns (r: Progress)
    requires mine == s.mine && belief == s.belief && key in belief && key !in s.theirs
    requires IsKey(key) && AsWritten(p, s, g.text, key) && Tidy(g.text, header)
    requires Get(TopLevelSettings(p.keys, g.text), key) == Get(g.believed, key) == Get(g.memory, key) == Get(mine, key)
    ensures Settles(p, s, g, r, header, key)
  {
    hide IsKey, TopLevelSettings, SectionLines, Tidy, SetsNo, Times, NoExample, Top, Bottom;
    r := g;
    if key in mine && mine[key] == belief[key] && p.adopts(key, "") {
      var text := RemoveTopLevelLine(p.keys, g.text, key);
      r := Progress(text, g.believed - {key}, g.memory - {key});
      OthersAsWritten(p, s, g.text, text, key);
    }
  }

  /** The value of the file is written, and what goes with it follows. */
  lemma TakenSettles(p: Program, s: Sides, g: Progress, g': Progress, header: string, key: string)
    requires key in s.theirs && TakesDisk(p, s, key) && AsWritten(p, s, g.text, key) && Tidy(g'.text, header)
    requires Get(TopLevelSettings(p.keys, g.text), key) == Get(g.believed, key) == Get(g.memory, key) == Get(s.mine, key)
    requires var value := s.theirs[key];
             && TopLevelSettings(p.keys, g'.text)
                == (if Repeats(p.keys, g.text, key) then TopLevelSettings(p.keys, g.text)
                    else TopLevelSettings(p.keys, g.text)[key := value])
             && g'.believed == (if key !in p.known || p.adopts(key, value) then g.believed[key := value] else g.believed)
             && g'.memory == (if key in p.known && p.adopts(key, value) then g.memory[key := value] else g.memory)
    requires SectionLines(p.keys, g'.text) == SectionLines(p.keys, g.text)
    requires forall k | k != key :: Keeps(p.keys, g.text, g'.text, k)
    ensures Settles(p, s, g, g', header, key)
  {
    hide TopLevelSettings, SectionLines, Tidy, SetsNo, Times, NoExample, Top, Bottom, Keeps;
    OthersAsWritten(p, s, g.text, g'.text, key);
  }

  /** One setting of the file. */
  method TakeOne(
    p: Program, ghost s: Sides, g: Progress, mine: map<string, string>, theirs: map<string, string>,
    belief: map<string, string>, key: string, header: string)
    returns (r: Progress)
    requires mine == s.mine && theirs == s.theirs && belief == s.belief && key in theirs
    requires IsKey(key) && IsValue(theirs[key]) && IsComment(header)
    requires AsWritten(p, s, g.text, key) && Tidy(g.text, header)
    requires Get(TopLevelSettings(p.keys, g.text), key) == Get(g.believed, key) == Get(g.memory, key) == Get(mine, key)
    ensures Settles(p, s, g, r, header, key)
  {
    hide IsValue, IsComment, TopLevelSettings, SectionLines, Tidy, SetsNo, Times, NoExample, Top, Bottom, Keeps, Repeats;
    r := g;
    var onDisk := theirs[key];
    var diskChanged := key !in belief || onDisk != belief[key];
    if key in p.keys.server {
      return;
    }
    if !diskChanged {
      if key in mine || key in p.known {
        return;
      }
      var text := SetTopLevelValue(p.keys, g.text, key, onDisk, header);
      r := Progress(text, g.believed[key := onDisk], g.memory);
      TakenSettles(p, s, g, r, header, key);
      return;
    }
    if key in belief && ValueOf(mine, key) != belief[key] && ValueOf(mine, key) != onDisk {
      return;
    }
    var text := SetTopLevelValue(p.keys, g.text, key, onDisk, header);
    if key !in p.known {
      r := Progress(text, g.believed[key := onDisk], g.memory);
    } else if p.adopts(key, onDisk) {
      r := Progress(text, g.believed[key := onDisk], g.memory[key := onDisk]);
    } else {
      r := r.(text := text);
    }
    TakenSettles(p, s, g, r, header, key);
  }

  // ---- A three-way merge ----

  /** The side that changed wins; memory wins when both did. */
  function ThreeWay(belief: Option<string>, disk: Option<string>, memory: Option<string>): Option<string> {
    if disk == belief then memory
    else if memory == belief then disk
    else memory
  }

  /** ngPost holds nothing about a setting it does not know: it has no change to oppose. */
  function Memory(p: Program, s: Sides, key: string): Option<string> {
    if key in p.known then Get(s.mine, key) else Get(s.belief, key)
  }

  /** The cases in which the save does not follow the rule: a setting that appeared on
      both sides, where the file wins; one deleted from the file that ngPost cannot do
      without, which comes back; a setting ngPost does not know whose line was edited,
      which is taken for a conflict and dropped; one that ngPost has no longer anything to
      write for, where an empty value on the other sides is no value and the file wins; and
      an edited setting that ngPost writes on two lines, whose edit is lost. */
  predicate Exceptional(p: Program, s: Sides, key: string)
    requires s.twice <= s.mine.Keys
  {
    || (key in s.theirs && key !in s.belief && key in s.mine && s.mine[key] != s.theirs[key] && key !in s.twice)
    || (key !in s.theirs && key in s.belief && key in s.mine && s.mine[key] == s.belief[key] && !p.adopts(key, ""))
    || (key in s.theirs && key in s.belief && key !in p.known && s.theirs[key] != s.belief[key]
        && s.belief[key] != "" && s.theirs[key] != "")
    || (key in s.theirs && key in s.belief && key in p.known && key !in s.mine && s.theirs[key] != s.belief[key]
        && (s.belief[key] == "" || s.theirs[key] == ""))
    || (key in s.theirs && key in s.belief && key in s.twice && s.theirs[key] != s.belief[key]
        && s.mine[key] == s.belief[key])
  }

  /** The save is the three-way merge, setting by setting, outside exactly those cases.
      ngPost writes only what it knows. */
  lemma MergeIsThreeWayIff(p: Program, s: Sides, key: string)
    requires (key in s.mine ==> key in p.known) && key !in p.keys.server && s.twice <= s.mine.Keys
    ensures Merged(p, s, key) == ThreeWay(Get(s.belief, key), Get(s.theirs, key), Memory(p, s, key))
       <==> !Exceptional(p, s, key)
  {
  }

  /** In a conflict, with a setting that both sides hold and hold differently, ngPost's
      value is saved if and only if the setting was in the file before, or ngPost writes it
      on two lines. */
  lemma MemoryWinsConflictsIff(p: Program, s: Sides, key: string)
    requires key in s.theirs && key in s.mine && s.mine[key] != s.theirs[key] && key !in p.keys.server
    requires Get(s.belief, key) != Some(s.mine[key]) && Get(s.belief, key) != Some(s.theirs[key])
    ensures Merged(p, s, key) == Some(s.mine[key]) <==> key in s.belief || key in s.twice
  {
  }

  /** One setting that ngPost knows and can adopt, but not do without. */
  const SIMPLE: Program := Program(Keys({}, {}), {"a"}, (key: string, value: string) => value != "")

  /** The five cases, one of each: added on both sides, deleted from the file, an edited
      line ngPost does not know, an emptied line ngPost no longer writes, and an edited
      setting ngPost writes twice. */
  lemma MergeExceptions()
    ensures var added := Sides(map["a" := "1"], map["a" := "2"], map["b" := "0"], {});
            Exceptional(SIMPLE, added, "a") && Merged(SIMPLE, added, "a") == Some("2")
            && ThreeWay(None, Some("2"), Some("1")) == Some("1")
    ensures var deleted := Sides(map["a" := "1"], map[], map["a" := "1"], {});
            Exceptional(SIMPLE, deleted, "a") && Merged(SIMPLE, deleted, "a") == Some("1")
            && ThreeWay(Some("1"), None, Some("1")) == None
    ensures var edited := Sides(map[], map["x" := "2"], map["x" := "1"], {});
            Exceptional(SIMPLE, edited, "x") && Merged(SIMPLE, edited, "x") == None
            && ThreeWay(Some("1"), Some("2"), Some("1")) == Some("2")
    ensures var filled := Sides(map[], map["a" := "1"], map["a" := ""], {});
            Exceptional(SIMPLE, filled, "a") && Merged(SIMPLE, filled, "a") == Some("1")
            && ThreeWay(Some(""), Some("1"), None) == None
    ensures var both := Sides(map["a" := "FILES"], map["a" := "BAR"], map["a" := "FILES"], {"a"});
            Exceptional(SIMPLE, both, "a") && Merged(SIMPLE, both, "a") == Some("FILES")
            && ThreeWay(Some("FILES"), Some("BAR"), Some("FILES")) == Some("BAR")
  {
  }

  /** A server key above the blocks is never taken from the file: ngPost writes what it has
      as a block, so a line it does not write itself goes. */
  lemma ServerLinesGo(p: Program, s: Sides, key: string)
    requires key in p.keys.server && key !in s.mine
    ensures Merged(p, s, key).None? && Believed(p, s, key).None? && Held(p, s, key).None?
    ensures key in s.mine && key in s.theirs ==> Merged(p, s, key) == Some(s.mine[key])
  {
  }

  /** ngPost takes a value from the file exactly when it knows the setting, the file has
      changed it and ngPost has not, and the value is one it can adopt while running; it
      drops one exactly when the line is gone, it had not changed it either, and it can do
      without. Everything else it holds as before. */
  lemma HeldIff(p: Program, s: Sides, key: string)
    requires (key in s.mine ==> key in p.known) && key !in p.keys.server
    ensures Held(p, s, key) != Get(s.mine, key) <==>
              || (&& key in s.theirs && Get(s.belief, key) != Some(s.theirs[key]) && Get(s.mine, key) != Some(s.theirs[key])
                  && (key in s.belief ==> ValueOf(s.mine, key) == s.belief[key] || ValueOf(s.mine, key) == s.theirs[key])
                  && key in p.known && p.adopts(key, s.theirs[key]))
              || (key !in s.theirs && key in s.mine && Get(s.belief, key) == Some(s.mine[key]) && p.adopts(key, ""))
    ensures Held(p, s, key) != Get(s.mine, key) ==> Held(p, s, key) == Get(s.theirs, key)
  {
  }

  /** What ngPost believes of a setting it knows is what it holds; of any other, what the
      saved file says. */
  lemma BelievesWhatItHolds(p: Program, s: Sides, key: string)
    requires s.mine.Keys <= p.known && s.twice <= s.mine.Keys
    ensures Believed(p, s, key) == if key in p.known then Held(p, s, key) else Merged(p, s, key)
  {
  }

  // ---- Saving again ----

  /** What ngPost holds, what the file says if it can be read, and what ngPost believes it
      says. */
  datatype Config = Config(memory: map<string, string>, disk: Option<map<string, string>>, belief: map<string, string>)

  /** A save, of a text that has some settings on two lines. */
  function Save(p: Program, c: Config, twice: set<string>): Config {
    if c.belief == map[] || c.disk.None? then Config(c.memory, Some(c.memory), c.memory)
    else
      var s := Sides(c.memory, c.disk.value, c.belief, twice);
      Config(HeldMap(p, s), Some(MergedMap(p, s)), BelievedMap(p, s))
  }

  /** ngPost writes what it knows, and twice only what it cannot take from the file while
      it runs. */
  ghost predicate WritesKnown(p: Program, c: Config, twice: set<string>) {
    c.memory.Keys <= p.known && twice <= c.memory.Keys && forall k, value | k in twice :: !p.adopts(k, value)
  }

  /** Setting by setting, the second save finds nothing to do. */
  lemma SecondSaveAgrees(p: Program, s: Sides, next: Sides, key: string)
    requires s.mine.Keys <= p.known && s.twice <= s.mine.Keys && next.twice == s.twice
    requires forall value | key in s.twice :: !p.adopts(key, value)
    requires Get(next.mine, key) == Held(p, s, key) && Get(next.theirs, key) == Merged(p, s, key)
    requires Get(next.belief, key) == Believed(p, s, key)
    ensures Merged(p, next, key) == Merged(p, s, key)
    ensures Believed(p, next, key) == Believed(p, s, key) && Held(p, next, key) == Held(p, s, key)
  {
  }

  lemma SavedTwice(p: Program, c: Config, twice: set<string>)
    requires WritesKnown(p, c, twice) && Save(p, c, twice).belief != map[] && c.belief != map[] && c.disk.Some?
    ensures Save(p, Save(p, c, twice), twice) == Save(p, c, twice)
  {
    hide Merged, Believed, Held;
    var s, d := Sides(c.memory, c.disk.value, c.belief, twice), Save(p, c, twice);
    var next := Sides(d.memory, d.disk.value, d.belief, twice);
    forall k
      ensures Get(MergedMap(p, next), k) == Get(MergedMap(p, s), k)
      ensures Get(BelievedMap(p, next), k) == Get(BelievedMap(p, s), k)
      ensures Get(HeldMap(p, next), k) == Get(HeldMap(p, s), k)
    {
      SecondSaveAgrees(p, s, next, k);
    }
    SameMap(MergedMap(p, next), MergedMap(p, s));
    SameMap(BelievedMap(p, next), BelievedMap(p, s));
    SameMap(HeldMap(p, next), HeldMap(p, s));
  }

  /** What ngPost holds it also believes the file to say, after a save. */
  lemma HeldIsBelieved(p: Program, c: Config, twice: set<string>)
    requires Save(p, c, twice).belief == map[]
    ensures Save(p, c, twice).memory == map[]
  {
    if c.belief != map[] && c.disk.Some? {
      var s := Sides(c.memory, c.disk.value, c.belief, twice);
      forall k ensures Get(HeldMap(p, s), k) == Get(map[], k) {
        assert Get(BelievedMap(p, s), k) == None;
      }
      SameMap(HeldMap(p, s), map[]);
    }
  }

  /** Saving again with no change in between changes nothing at all: not the file, values
      kept for the next start and unknown settings included, nor what ngPost holds or
      believes. The one exception is a file that keeps values while ngPost itself has
      nothing to write: it looks as if it was never read. */
  lemma SecondSaveChangesNothingIff(p: Program, c: Config, twice: set<string>)
    requires WritesKnown(p, c, twice)
    ensures Save(p, Save(p, c, twice), twice) == Save(p, c, twice)
       <==> Save(p, c, twice).belief != map[] || Save(p, c, twice).disk == Some(map[])
  {
    hide HeldMap, MergedMap, BelievedMap, WritesKnown;
    if Save(p, c, twice).belief == map[] {
      HeldIsBelieved(p, c, twice);
    } else if c.belief != map[] && c.disk.Some? {
      SavedTwice(p, c, twice);
    } else {
      FirstSaveSettles(p, c, twice);
    }
  }

  /** Whatever the writer makes of its settings holds one that cannot be cleared, such as
      the number of retries: a second save in a row never changes anything. */
  lemma SecondSaveChangesNothing(p: Program, c: Config, twice: set<string>, key: string)
    requires WritesKnown(p, c, twice) && key in c.memory && !p.adopts(key, "")
    ensures Save(p, Save(p, c, twice), twice) == Save(p, c, twice)
  {
    hide MergedMap, HeldMap, WritesKnown;
    if c.belief != map[] && c.disk.Some? {
      var s := Sides(c.memory, c.disk.value, c.belief, twice);
      assert Get(BelievedMap(p, s), key) == Believed(p, s, key);
    }
    SecondSaveChangesNothingIff(p, c, twice);
  }

  lemma FirstSaveSettles(p: Program, c: Config, twice: set<string>)
    requires (c.belief == map[] || c.disk.None?) && WritesKnown(p, c, twice) && c.memory != map[]
    ensures Save(p, Save(p, c, twice), twice) == Save(p, c, twice)
  {
    var m := c.memory;
    var s := Sides(m, m, m, twice);
    forall k ensures Get(MergedMap(p, s), k) == Get(BelievedMap(p, s), k) == Get(HeldMap(p, s), k) == Get(m, k) {
    }
    SameMap(MergedMap(p, s), m);
    SameMap(BelievedMap(p, s), m);
    SameMap(HeldMap(p, s), m);
  }

  // ---- The configuration file ----

  class ConfigFile {
    const program: Program
    var memory: map<string, string>
    /** None when the file cannot be read. */
    var diskText: Option<seq<string>>
    var configBelief: map<string, string>

    ghost predicate Valid()
      reads this
    {
      forall k | k in configBelief :: IsKey(k)
    }

    function View(): Config
      reads this
    {
      Config(memory, SettingsOn(program.keys, diskText), configBelief)
    }

    /** ngPost as it starts: it has read the file, or another one instead. */
    constructor (program: Program, memory: map<string, string>, diskText: Option<seq<string>>, wasRead: bool)
      ensures Valid() && this.program == program
      ensures View() == Config(memory, SettingsOn(program.keys, diskText),
                               if wasRead && diskText.Some? then TopLevelSettings(program.keys, diskText.value) else map[])
    {
      this.program, this.memory, this.diskText := program, memory, diskText;
      configBelief := if wasRead && diskText.Some? then TopLevelSettings(program.keys, diskText.value) else map[];
      if diskText.Some? {
        ParsedSettings(program.keys, diskText.value);
      }
    }

    /** Saves over the file. `text` is what the writer makes of the settings ngPost holds. */
    method SaveConfig(text: seq<string>, header: string)
      requires Valid() && TopLevelSettings(program.keys, text) == memory
      requires IsComment(header) && Written(program.keys, text, header)
      modifies this
      ensures Valid() && View() == Save(program, old(View()), TwiceWritten(text))
      ensures diskText.Some? && SectionLines(program.keys, diskText.value) == SectionLines(program.keys, text)
    {
      hide TopLevelSettings, SectionLines, Written, IsKey, IsValue, IsComment, HeldMap, MergedMap, BelievedMap;
      var r := MergeExternalConfigEdits(program, text, diskText, configBelief, header);
      ParsedSettings(program.keys, text);
      if diskText.Some? {
        ParsedSettings(program.keys, diskText.value);
        BelievesPairs(program, Sides(memory, TopLevelSettings(program.keys, diskText.value), configBelief, TwiceWritten(text)));
      }
      memory, diskText, configBelief := r.memory, Some(r.text), r.believed;
    }
  }

  function SettingsOn(keys: Keys, text: Option<seq<string>>): Option<map<string, string>> {
    if text.None? then None else Some(TopLevelSettings(keys, text.value))
  }

  lemma BelievesPairs(p: Program, s: Sides)
    requires forall k | k in s.mine || k in s.theirs :: IsKey(k)
    ensures forall k | k in BelievedMap(p, s) :: IsKey(k)
  {
    hide IsKey;
    forall k | k in BelievedMap(p, s) ensures IsKey(k) {
      assert Get(BelievedMap(p, s), k) == Believed(p, s, k);
    }
  }
}
