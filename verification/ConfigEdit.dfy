/** What the edits of a configuration text do to the settings it holds (src/NgPost.cpp).
    A text is the list of its lines. */
module ConfigEdit {
  import opened ConfigText

  /** The keys that belong to the blocks. */
  datatype Keys = Keys(server: set<string>, profile: set<string>)

  /** The parser between two lines: where it stands, and what it has collected. */
  datatype Reading = Reading(area: Area, settings: map<string, string>, sections: seq<string>)

  const AT_START: Reading := Reading(Settings, map[], [])

  predicate Owned(keys: Keys, area: Area, key: string) {
    (area != Settings && key in keys.server) || (area == In(VpnProfile) && key in keys.profile)
  }

  function ReadLine(keys: Keys, r: Reading, raw: string): Reading {
    match Parse(raw)
    case Skipped => r
    case Header(block) => r.(area := In(block), sections := r.sections + [Trim(raw)])
    case Pair(key, value) =>
      if Owned(keys, r.area, key) then r.(sections := r.sections + [Trim(raw)])
      else r.(settings := r.settings[key := value])
  }

  function Read(keys: Keys, r: Reading, lines: seq<string>): Reading
    decreases |lines|
  {
    if lines == [] then r else Read(keys, ReadLine(keys, r, lines[0]), lines[1..])
  }

  function TopLevelSettings(keys: Keys, lines: seq<string>): map<string, string> {
    Read(keys, AT_START, lines).settings
  }

  function SectionLines(keys: Keys, lines: seq<string>): seq<string> {
    Read(keys, AT_START, lines).sections
  }

  predicate HasKey(raw: string, key: string) {
    Parse(raw).Pair? && Parse(raw).key == key
  }

  /** On how many of these lines the key stands. */
  function Times(lines: seq<string>, key: string): nat {
    if lines == [] then 0 else (if HasKey(lines[0], key) then 1 else 0) + Times(lines[1..], key)
  }

  predicate NoSection(lines: seq<string>) {
    forall line | line in lines :: !EndsSettings(line)
  }

  /** How many lines stand above the sections. */
  function Cut(lines: seq<string>): (cut: nat)
    ensures cut <= |lines| && NoSection(lines[..cut])
    ensures cut < |lines| ==> EndsSettings(lines[cut])
  {
    if lines == [] || EndsSettings(lines[0]) then 0 else
      var rest := Cut(lines[1..]);
      assert lines[..rest + 1] == [lines[0]] + lines[1..][..rest];
      rest + 1
  }

  function Top(lines: seq<string>): seq<string> { lines[..Cut(lines)] }

  function Bottom(lines: seq<string>): seq<string> { lines[Cut(lines)..] }

  function AreaAfter(area: Area, raw: string): Area {
    if Parse(raw).Header? then In(Parse(raw).block) else area
  }

  /** Read from there on, these lines set nothing under the key. */
  predicate SetsNo(keys: Keys, area: Area, lines: seq<string>, key: string)
    decreases |lines|
  {
    lines == [] ||
    ((HasKey(lines[0], key) ==> Owned(keys, area, key))
     && SetsNo(keys, AreaAfter(area, lines[0]), lines[1..], key))
  }

  /** The key is set again behind its first line above the sections. */
  predicate Repeats(keys: Keys, lines: seq<string>, key: string) {
    Times(Top(lines), key) > 1 || !SetsNo(keys, Settings, Bottom(lines), key)
  }

  // ---- Lines above the sections ----

  lemma {:induction false} TimesSplit(a: seq<string>, b: seq<string>, key: string)
    ensures Times(a + b, key) == Times(a, key) + Times(b, key)
  {
    hide HasKey;
    if a == [] {
      assert a + b == b;
    } else {
      assert (a + b)[1..] == a[1..] + b;
      TimesSplit(a[1..], b, key);
    }
  }

  lemma TimesThree(a: seq<string>, b: seq<string>, c: seq<string>, key: string)
    ensures Times(a + b + c, key) == Times(a, key) + Times(b, key) + Times(c, key)
  {
    TimesSplit(a, b, key);
    TimesSplit(a + b, c, key);
  }

  lemma {:induction false} CutSplits(a: seq<string>, b: seq<string>)
    requires NoSection(a)
    ensures Cut(a + b) == |a| + Cut(b) && Top(a + b) == a + Top(b) && Bottom(a + b) == Bottom(b)
  {
    hide EndsSettings;
    if a == [] {
      assert a + b == b;
    } else {
      assert a[0] in a && (a + b)[1..] == a[1..] + b;
      CutSplits(a[1..], b);
    }
  }

  lemma HeaderEndsSettings(raw: string)
    requires Parse(raw).Header?
    ensures EndsSettings(raw)
  {
  }

  /** So does a block that is commented out: what is added under it would join the block as
      soon as the user uncomments it. */
  lemma CommentedBlockEndsSettings(raw: string)
    requires Parse(raw).Header?
    ensures EndsSettings("#" + Trim(raw))
  {
    hide TrimLeft, TrimRight, Trim;
    var a, b := TrimParts(raw);
    var line := "#" + Trim(raw);
    TrimIs("", line, "");
    assert "" + line + "" == line;
  }

  /** Above the sections every line with the key sets it. */
  lemma {:induction false} SetsNoSplits(keys: Keys, a: seq<string>, b: seq<string>, key: string)
    requires NoSection(a)
    ensures SetsNo(keys, Settings, a + b, key) <==> Times(a, key) == 0 && SetsNo(keys, Settings, b, key)
    decreases |a|
  {
    hide Parse, EndsSettings;
    if a == [] {
      assert a + b == b;
    } else {
      assert a[0] in a && (a + b)[1..] == a[1..] + b;
      if Parse(a[0]).Header? {
        HeaderEndsSettings(a[0]);
      }
      SetsNoSplits(keys, a[1..], b, key);
    }
  }

  // ---- Reading ----

  lemma {:induction false} ReadAppend(keys: Keys, r: Reading, a: seq<string>, b: seq<string>)
    ensures Read(keys, r, a + b) == Read(keys, Read(keys, r, a), b)
    decreases |a|
  {
    if a == [] {
      assert a + b == b;
    } else {
      assert (a + b)[1..] == a[1..] + b;
      ReadAppend(keys, ReadLine(keys, r, a[0]), a[1..], b);
    }
  }

  lemma {:induction false} AreaStays(keys: Keys, r: Reading, lines: seq<string>)
    requires NoSection(lines) && r.area == Settings
    ensures Read(keys, r, lines).area == Settings && Read(keys, r, lines).sections == r.sections
    decreases |lines|
  {
    hide Parse, EndsSettings, Trim;
    if lines != [] {
      assert lines[0] in lines;
      if Parse(lines[0]).Header? {
        HeaderEndsSettings(lines[0]);
      }
      AreaStays(keys, ReadLine(keys, r, lines[0]), lines[1..]);
    }
  }

  /** A setting that no later line touches can be made, or unmade, before or after them. */
  lemma {:induction false} SettingCommutes(keys: Keys, r: Reading, lines: seq<string>, key: string, value: string)
    requires SetsNo(keys, r.area, lines, key)
    ensures Read(keys, r.(settings := r.settings[key := value]), lines)
         == var after := Read(keys, r, lines); after.(settings := after.settings[key := value])
    ensures Read(keys, r.(settings := r.settings - {key}), lines)
         == var after := Read(keys, r, lines); after.(settings := after.settings - {key})
    decreases |lines|
  {
    hide Parse, Trim, Owned;
    if lines != [] {
      SettingCommutes(keys, ReadLine(keys, r, lines[0]), lines[1..], key, value);
      LineCommutes(keys, r, lines[0], key, value);
    }
  }

  lemma LineCommutes(keys: Keys, r: Reading, raw: string, key: string, value: string)
    requires HasKey(raw, key) ==> Owned(keys, r.area, key)
    ensures ReadLine(keys, r.(settings := r.settings[key := value]), raw)
         == var after := ReadLine(keys, r, raw); after.(settings := after.settings[key := value])
    ensures ReadLine(keys, r.(settings := r.settings - {key}), raw)
         == var after := ReadLine(keys, r, raw); after.(settings := after.settings - {key})
  {
    hide Parse, Trim, Owned;
    if Parse(raw).Pair? && Parse(raw).key != key {
      var m, k, v := r.settings, Parse(raw).key, Parse(raw).value;
      assert m[key := value][k := v] == m[k := v][key := value];
      assert (m - {key})[k := v] == m[k := v] - {key};
    }
  }

  /** One that a later line sets again is lost, whatever it was. */
  lemma {:induction false} SetAgain(keys: Keys, r: Reading, t: Reading, lines: seq<string>, key: string)
    requires !SetsNo(keys, r.area, lines, key)
    requires r.area == t.area && r.sections == t.sections && r.settings - {key} == t.settings - {key}
    ensures Read(keys, r, lines) == Read(keys, t, lines)
    decreases |lines|
  {
    hide Parse, Trim, Owned;
    LineForgets(keys, r, t, lines[0], key);
    var a, b := ReadLine(keys, r, lines[0]), ReadLine(keys, t, lines[0]);
    if HasKey(lines[0], key) && !Owned(keys, r.area, key) {
      assert a.settings == (a.settings - {key})[key := Parse(lines[0]).value];
      assert b.settings == (b.settings - {key})[key := Parse(lines[0]).value];
    } else {
      SetAgain(keys, a, b, lines[1..], key);
    }
  }

  lemma LineForgets(keys: Keys, r: Reading, t: Reading, raw: string, key: string)
    requires r.area == t.area && r.sections == t.sections && r.settings - {key} == t.settings - {key}
    ensures var a, b := ReadLine(keys, r, raw), ReadLine(keys, t, raw);
            a.area == b.area && a.sections == b.sections && a.settings - {key} == b.settings - {key}
  {
    hide Parse, Trim, Owned;
    if Parse(raw).Pair? {
      var k, v := Parse(raw).key, Parse(raw).value;
      if k == key {
        assert r.settings[k := v] - {key} == r.settings - {key};
        assert t.settings[k := v] - {key} == t.settings - {key};
      } else {
        assert r.settings[k := v] - {key} == (r.settings - {key})[k := v];
        assert t.settings[k := v] - {key} == (t.settings - {key})[k := v];
      }
    }
  }

  /** Lines that hold no setting but this one, above the sections. */
  lemma {:induction false} OneSetting(keys: Keys, r: Reading, lines: seq<string>, key: string, value: string)
    requires r.area == Settings && lines != []
    requires forall i | 0 <= i < |lines| - 1 :: Parse(lines[i]) == Skipped
    requires Parse(lines[|lines| - 1]) == Pair(key, value)
    ensures Read(keys, r, lines) == r.(settings := r.settings[key := value])
  {
    hide Parse, Trim;
    if |lines| > 1 {
      OneSetting(keys, r, lines[1..], key, value);
    }
  }

  /** What the parser collects are keys and values. */
  lemma {:induction false} SettingsArePairs(keys: Keys, r: Reading, lines: seq<string>)
    requires forall k | k in r.settings :: IsKey(k) && IsValue(r.settings[k])
    ensures var m := Read(keys, r, lines).settings; forall k | k in m :: IsKey(k) && IsValue(m[k])
    decreases |lines|
  {
    hide Parse, Trim, Owned, IsKey, IsValue;
    if lines != [] {
      if Parse(lines[0]).Pair? {
        ParsedIsPair(lines[0]);
      }
      SettingsArePairs(keys, ReadLine(keys, r, lines[0]), lines[1..]);
    }
  }

  /** The last block header of these lines: blocks do not end. */
  function LastBlock(lines: seq<string>): Area {
    if lines == [] then Settings
    else
      var last := Parse(lines[|lines| - 1]);
      if last.Header? then In(last.block) else LastBlock(lines[..|lines| - 1])
  }

  lemma {:induction false} AreaIsLastBlock(keys: Keys, lines: seq<string>)
    ensures Read(keys, AT_START, lines).area == LastBlock(lines)
    decreases |lines|
  {
    hide Parse, Owned;
    if lines != [] {
      var init, last := lines[..|lines| - 1], lines[|lines| - 1];
      AreaIsLastBlock(keys, init);
      ReadAppend(keys, AT_START, init, [last]);
      assert init + [last] == lines && [last][1..] == [];
    }
  }

  /** A line belongs to the block it stands in exactly if that block knows its key: a
      [server] block the server keys, a [vpn_profile] block those and its own. Any other
      line with a key is a setting, wherever it stands. */
  lemma LineBelongs(keys: Keys, lines: seq<string>, raw: string)
    requires Parse(raw).Pair?
    ensures var k, v := Parse(raw).key, Parse(raw).value;
            var owned := match LastBlock(lines)
                         case Settings => false
                         case In(Server) => k in keys.server
                         case In(VpnProfile) => k in keys.server || k in keys.profile;
            && TopLevelSettings(keys, lines + [raw])
               == (if owned then TopLevelSettings(keys, lines) else TopLevelSettings(keys, lines)[k := v])
            && SectionLines(keys, lines + [raw]) == SectionLines(keys, lines) + if owned then [Trim(raw)] else []
  {
    hide Parse, Trim;
    AreaIsLastBlock(keys, lines);
    ReadAppend(keys, AT_START, lines, [raw]);
    assert [raw][1..] == [];
  }

  // ---- One line replaced or added ----

  /** Replacing a line of the key above the sections, or adding one, sets it, unless it is
      set again behind. */
  lemma EditSets(
    keys: Keys, pre: seq<string>, was: seq<string>, now: seq<string>, post: seq<string>, key: string, value: string)
    requires NoSection(pre) && now != []
    requires was == [] || (|was| == 1 && HasKey(was[0], key))
    requires forall i | 0 <= i < |now| - 1 :: Parse(now[i]) == Skipped
    requires Parse(now[|now| - 1]) == Pair(key, value)
    ensures var before := TopLevelSettings(keys, pre + was + post);
            TopLevelSettings(keys, pre + now + post)
            == if SetsNo(keys, Settings, post, key) then before[key := value] else before
    ensures SectionLines(keys, pre + now + post) == SectionLines(keys, pre + was + post)
  {
    hide Parse, Trim, Owned, EndsSettings;
    var r := Read(keys, AT_START, pre);
    AreaStays(keys, AT_START, pre);
    ReadAppend(keys, AT_START, pre, now);
    ReadAppend(keys, AT_START, pre + now, post);
    ReadAppend(keys, AT_START, pre, was);
    ReadAppend(keys, AT_START, pre + was, post);
    OneSetting(keys, r, now, key, value);
    var before := if was == [] then value else Parse(was[0]).value;
    if was != [] {
      OneSetting(keys, r, was, key, before);
    }
    if SetsNo(keys, Settings, post, key) {
      SettingCommutes(keys, r, post, key, value);
      SettingCommutes(keys, r, post, key, before);
    } else {
      SetAgain(keys, Read(keys, r, now), Read(keys, r, was), post, key);
    }
  }

  /** The text ngPost inserts above a line it keeps: a comment. */
  predicate IsComment(header: string) {
    header != "" && header[0] == '#' && !EndsSettings(header) && Trim(header) == header && '=' !in header
  }

  predicate NoExample(lines: seq<string>, key: string) {
    forall line | line in lines :: !IsExample(line, key)
  }

  /** What is kept under the header reaches down to the sections. */
  ghost predicate Tidy(lines: seq<string>, header: string) { FullBelow(Top(lines), header) }

  /** No line below the header is blank. */
  ghost predicate FullBelow(lines: seq<string>, header: string) {
    forall i, j | 0 <= i < j < |lines| && lines[i] == header :: Trim(lines[j]) != ""
  }

  /** The edit of another line is none of this key's business. */
  ghost predicate Keeps(keys: Keys, lines: seq<string>, r: seq<string>, k: string) {
    && Times(Top(r), k) == Times(Top(lines), k)
    && (SetsNo(keys, Settings, Bottom(lines), k) ==> SetsNo(keys, Settings, Bottom(r), k))
    && (NoExample(Top(lines), k) ==> NoExample(Top(r), k))
  }

  lemma CommentsAreSkipped(header: string)
    requires IsComment(header)
    ensures Parse(header) == Skipped && Parse("") == Skipped && !EndsSettings("") && !EndsSettings(header)
    ensures forall key :: !IsExample(header, key) && !IsExample("", key)
  {
  }

  /** A line that is read as a pair is no comment and no example. */
  lemma PairIsNoExample(raw: string, header: string)
    requires Parse(raw).Pair? && IsComment(header)
    ensures Trim(raw) != "" && raw != header && forall key :: !IsExample(raw, key)
  {
    hide Parse, EndsSettings, Trim, IsKey, IsComment;
    CommentsAreSkipped(header);
    ParseIs(raw);
    ParsedIsPair(raw);
    MatchesIffParsed(raw, Parse(raw).key);
    NameIsNoComment(raw, Parse(raw).key);
  }

  lemma NameIsNoComment(raw: string, key: string)
    requires IsKey(key) && Matches(raw, key)
    ensures Name(raw).value != "" && Name(raw).value[0] != '#'
  {
    LowerFirst(Name(raw).value);
  }

  /** One line is replaced, or added above the sections, perhaps under a new header. */
  ghost predicate IsEdit(
    header: string, pre: seq<string>, was: seq<string>, now: seq<string>, post: seq<string>, key: string, value: string)
  {
    && IsComment(header) && header != "" && NoSection(pre) && Times(pre, key) == 0 && now != [] && key != ""
    && (|| (was == [] && Times(Top(post), key) == 0)
        || (|was| == 1 && HasKey(was[0], key) && !EndsSettings(was[0])))
    && var line := now[|now| - 1];
    && Parse(line) == Pair(key, value) && (EndsSettings(line) <==> key[0] == '[')
    && (now == [line] || (now == ["", header, line] && was == [] && header !in pre && Top(post) == []))
  }

  lemma EditSettings(
    keys: Keys, header: string, pre: seq<string>, was: seq<string>, now: seq<string>, post: seq<string>,
    key: string, value: string)
    requires IsEdit(header, pre, was, now, post, key, value)
    ensures var lines := pre + was + post;
            && TopLevelSettings(keys, pre + now + post)
               == (if Repeats(keys, lines, key) then TopLevelSettings(keys, lines)
                   else TopLevelSettings(keys, lines)[key := value])
            && SectionLines(keys, pre + now + post) == SectionLines(keys, lines)
  {
    hide Parse, EndsSettings, TopLevelSettings, SectionLines, SetsNo, IsComment, Cut, IsExample;
    CommentsAreSkipped(header);
    EditSets(keys, pre, was, now, post, key, value);
    CutSplits(pre + was, post);
    TimesThree(pre, was, Top(post), key);
    assert Top(post) + Bottom(post) == post;
    SetsNoSplits(keys, Top(post), Bottom(post), key);
  }

  /** Above the sections stand the lines that stood there, and the new one. */
  lemma EditedTop(
    header: string, pre: seq<string>, was: seq<string>, now: seq<string>, post: seq<string>, key: string, value: string)
    requires IsEdit(header, pre, was, now, post, key, value)
    requires key[0] != '[' || Top(post) == []
    ensures Top(pre + was + post) == pre + was + Top(post) && Bottom(pre + was + post) == Bottom(post)
    ensures key[0] != '[' ==> Top(pre + now + post) == pre + now + Top(post) && Bottom(pre + now + post) == Bottom(post)
    ensures key[0] == '[' ==>
              && was == [] && Top(pre + now + post) == pre + now[..|now| - 1]
              && Bottom(pre + now + post) == [now[|now| - 1]] + Bottom(post)
  {
    hide Parse, EndsSettings, IsComment, IsExample, HasKey, Times, Cut, Top, Bottom;
    CommentsAreSkipped(header);
    CutSplits(pre + was, post);
    if key[0] != '[' {
      CutSplits(pre + now, post);
    } else {
      var line := now[|now| - 1];
      SectionIsAdded(header, pre, was, now, post, key, value);
      assert pre + now + post == (pre + now[..|now| - 1]) + ([line] + post);
      CutSplits(pre + now[..|now| - 1], [line] + post);
      SectionStarts(line, post);
    }
  }

  lemma SectionIsAdded(
    header: string, pre: seq<string>, was: seq<string>, now: seq<string>, post: seq<string>, key: string, value: string)
    requires IsEdit(header, pre, was, now, post, key, value) && key[0] == '['
    ensures was == []
  {
    hide Parse, EndsSettings, IsComment;
    if was != [] {
      ParsedIsPair(was[0]);
      MatchesIffParsed(was[0], key);
    }
  }

  /** Nothing below a section is above the sections. */
  lemma SectionStarts(line: string, post: seq<string>)
    requires EndsSettings(line) && Top(post) == []
    ensures Top([line] + post) == [] && Bottom([line] + post) == [line] + Bottom(post)
  {
    hide EndsSettings;
    assert ([line] + post)[0] == line;
  }

  lemma NewLinesHold(now: seq<string>, header: string, k: string)
    requires now != [] && IsComment(header) && !HasKey(now[|now| - 1], k)
    requires now == [now[|now| - 1]] || now == ["", header, now[|now| - 1]]
    ensures Times(now, k) == 0 == Times(now[..|now| - 1], k)
  {
    hide HasKey, IsComment;
    CommentsAreSkipped(header);
    assert !HasKey("", k) && !HasKey(header, k) by { CommentHoldsNothing(header, k); }
    if |now| == 3 {
      assert now[1..] == [header, now[2]] && now[1..][1..] == [now[2]] && now[1..][1..][1..] == [];
      assert now[..2][1..] == [header] && now[..2][1..][1..] == [];
    } else {
      assert now[1..] == [] && now[..0] == [];
    }
  }

  lemma CommentHoldsNothing(header: string, k: string)
    requires IsComment(header)
    ensures !HasKey("", k) && !HasKey(header, k)
  {
    hide Parse, IsComment;
    CommentsAreSkipped(header);
  }

  lemma EditKeeps(
    keys: Keys, header: string, pre: seq<string>, was: seq<string>, now: seq<string>, post: seq<string>,
    key: string, value: string, k: string)
    requires IsEdit(header, pre, was, now, post, key, value) && k != key
    requires key[0] != '[' || Top(post) == []
    ensures Keeps(keys, pre + was + post, pre + now + post, k)
  {
    hide Parse, EndsSettings, IsComment, Top, Bottom, IsExample;
    var line := now[|now| - 1];
    EditedTop(header, pre, was, now, post, key, value);
    CommentsAreSkipped(header);
    PairIsNoExample(line, header);
    TimesThree(pre, was, Top(post), k);
    TimesThree(pre, now, Top(post), k);
    TimesThree(pre, now[..|now| - 1], [], k);
    assert pre + now[..|now| - 1] + [] == pre + now[..|now| - 1];
    assert Times(was, k) == 0;
    NewLinesHold(now, header, k);
    if key[0] == '[' {
      assert ([line] + Bottom(post))[1..] == Bottom(post);
    }
  }

  lemma OneLineFull(pre: seq<string>, was: seq<string>, line: string, post: seq<string>, header: string)
    requires FullBelow(pre + was + post, header) && |was| <= 1 && line != header && Trim(line) != ""
    ensures FullBelow(pre + [line] + post, header)
  {
    hide Trim;
    var before, lines := pre + was + post, pre + [line] + post;
    forall i, j | 0 <= i < j < |lines| && lines[i] == header ensures Trim(lines[j]) != "" {
      var i' := if i < |pre| then i else i - 1 + |was|;
      assert i != |pre| && before[i'] == header;
      if j != |pre| {
        assert before[if j < |pre| then j else j - 1 + |was|] == lines[j];
      }
    }
  }

  lemma NewBlockFull(pre: seq<string>, tail: seq<string>, header: string)
    requires header !in pre && header != "" && |tail| <= 1 && forall line | line in tail :: Trim(line) != ""
    ensures FullBelow(pre + ["", header] + tail, header)
  {
    hide Trim;
    var lines := pre + ["", header] + tail;
    forall i | 0 <= i < |pre| ensures lines[i] != header {
      assert pre[i] in pre;
    }
    forall i, j | 0 <= i < j < |lines| && lines[i] == header ensures Trim(lines[j]) != "" {
      assert lines[j] == tail[0] && tail[0] in tail;
    }
  }

  lemma EditKeepsTidy(
    header: string, pre: seq<string>, was: seq<string>, now: seq<string>, post: seq<string>, key: string, value: string)
    requires IsEdit(header, pre, was, now, post, key, value)
    requires key[0] != '[' || Top(post) == []
    requires Tidy(pre + was + post, header)
    ensures Tidy(pre + now + post, header)
  {
    hide Parse, EndsSettings, IsComment, Top, Bottom, IsExample, Trim, FullBelow;
    var line := now[|now| - 1];
    EditedTop(header, pre, was, now, post, key, value);
    PairIsNoExample(line, header);
    if now == [line] {
      OneLineFull(pre, was, line, Top(post), header);
      assert key[0] == '[' ==> pre + now[..0] == pre + was + Top(post);
    } else {
      NewBlockFull(pre, [], header);
      NewBlockFull(pre, [line], header);
      assert pre + now + [] == pre + ["", header] + [line];
      assert pre + now[..2] == pre + ["", header] + [];
    }
  }

  // ---- The line that is written ----

  lemma NewLine(key: string, value: string)
    requires IsKey(key) && IsValue(value)
    ensures var line := Upper(key) + " = " + value; Parse(line) == Pair(key, value) && (EndsSettings(line) <==> key[0] == '[')
  {
    hide Parse, EndsSettings, Trim, IsValue, Upper, Lower, Tight;
    UpperIsPlain(key);
    NewLineOf(Upper(key), key, value);
  }

  lemma NewLineOf(name: string, key: string, value: string)
    requires IsKey(key) && IsValue(value) && Tight(name) && '=' !in name && Lower(name) == key && name != ""
    ensures var line := name + " = " + value; Parse(line) == Pair(key, value) && (EndsSettings(line) <==> key[0] == '[')
  {
    hide Parse, EndsSettings, Trim, IsValue, Lower, Tight;
    var front := name + " ";
    TrimIs("", name, " ");
    assert "" + name + " " == front;
    WrittenIsRead(front, key, value);
    assert front + "= " + value == name + " = " + value;
  }

  lemma UpperIsPlain(key: string)
    requires IsKey(key)
    ensures Tight(Upper(key)) && '=' !in Upper(key) && Lower(Upper(key)) == key && Upper(key) != ""
  {
  }

  lemma SameLine(raw: string, key: string, value: string)
    requires IsKey(key) && IsValue(value) && Matches(raw, key)
    ensures Equal(raw) > 0
    ensures var line := raw[..Equal(raw) + 1] + " " + value;
            Parse(line) == Pair(key, value) && (EndsSettings(line) <==> key[0] == '[')
  {
    hide Parse, EndsSettings, Trim, IsValue, Lower, Matches;
    FrontOfMatch(raw, key);
    var front := raw[..Equal(raw)];
    WrittenIsRead(front, key, value);
    assert front + "= " + value == raw[..Equal(raw) + 1] + " " + value;
  }

  lemma FrontOfMatch(raw: string, key: string)
    requires IsKey(key) && Matches(raw, key)
    ensures Equal(raw) > 0 && Trim(raw[..Equal(raw)]) != "" && Lower(Trim(raw[..Equal(raw)])) == key
  {
  }

  // ---- Setting a value ----

  /** The first line that ends the settings is where the loop stops. */
  lemma CutIs(lines: seq<string>, cut: nat)
    requires cut <= |lines| && NoSection(lines[..cut]) && (cut < |lines| ==> EndsSettings(lines[cut]))
    ensures Cut(lines) == cut
  {
    hide EndsSettings;
    assert lines[..cut] + lines[cut..] == lines;
    CutSplits(lines[..cut], lines[cut..]);
  }

  /** Where the settings of the text end. */
  method SectionStart(lines: seq<string>) returns (start: nat)
    ensures start == Cut(lines)
  {
    hide EndsSettings;
    start := 0;
    while start < |lines| && !EndsSettings(lines[start])
      invariant start <= |lines| && NoSection(lines[..start])
    {
      assert lines[..start + 1] == lines[..start] + [lines[start]];
      start := start + 1;
    }
    CutIs(lines, start);
  }

  /** The lines kept under the first such header end here: at the first blank one below it,
      or with the settings. */
  ghost predicate BlockEnds(top: seq<string>, header: string, end: int) {
    exists at :: 0 <= at < end <= |top| && top[at] == header && header !in top[..at]
                 && (forall j | at < j < end :: Trim(top[j]) != "") && (end < |top| ==> Trim(top[end]) == "")
  }

  /** The last commented example of the key. */
  predicate IsLastExample(top: seq<string>, key: string, i: int) {
    0 <= i < |top| && IsExample(top[i], key) && forall j | i < j < |top| :: !IsExample(top[j], key)
  }

  /** The value is on the first line of its key above the sections, which keeps its front;
      or on a new line: under the last example of the key; or else at the end of what is
      kept under the header; or else, under a new header, at the end of the settings. */
  ghost predicate PutRight(lines: seq<string>, r: seq<string>, key: string, value: string, header: string) {
    var top, line := Top(lines), Upper(key) + " = " + value;
    if Times(top, key) > 0 then
      exists i :: 0 <= i < |top| && HasKey(lines[i], key) && Times(lines[..i], key) == 0 && Equal(lines[i]) >= 0
                  && r == lines[..i] + [lines[i][..Equal(lines[i])] + "= " + value] + lines[i + 1..]
    else if !NoExample(top, key) then
      exists i :: IsLastExample(top, key, i) && r == lines[..i + 1] + [line] + lines[i + 1..]
    else if header in top then
      exists at :: 0 <= at <= |lines| && BlockEnds(top, header, at) && r == lines[..at] + [line] + lines[at..]
    else
      r == top + ["", header, line] + Bottom(lines)
  }

  /** The end of the lines already kept under the header, if it is there. */
  method HeaderEnd(lines: seq<string>, sections: nat, header: string) returns (end: int)
    requires sections == Cut(lines)
    ensures -1 <= end <= sections
    ensures end < 0 <==> header !in Top(lines)
    ensures end >= 0 && Tidy(lines, header) ==> end == sections
    ensures end >= 0 ==> BlockEnds(Top(lines), header, end)
  {
    hide EndsSettings, Trim;
    end := -1;
    var i := 0;
    while i < sections && end < 0
      invariant i <= sections && -1 <= end <= sections
      invariant if end < 0 then header !in lines[..i] else 0 < end && lines[end - 1] == header && header !in lines[..end - 1]
    {
      assert lines[..i + 1] == lines[..i] + [lines[i]];
      if lines[i] == header {
        end := i + 1;
      }
      i := i + 1;
    }
    if end >= 0 {
      assert Top(lines)[end - 1] == header;
      ghost var at := end - 1;
      assert Top(lines)[..at] == lines[..at];
      while end < sections && Trim(lines[end]) != ""
        invariant at < end <= sections
        invariant forall j | at < j < end :: Trim(Top(lines)[j]) != ""
      {
        assert Top(lines)[end] == lines[end];
        end := end + 1;
      }
      assert end < sections ==> Top(lines)[end] == lines[end];
    }
  }

  /** The line of the key above the sections, if any, and the commented example, if any. */
  method FindLine(lines: seq<string>, sections: nat, key: string) returns (found: int, commented: int)
    requires IsKey(key) && sections == Cut(lines)
    ensures -1 <= found < sections && -1 <= commented < sections
    ensures found >= 0 ==> Matches(lines[found], key) && HasKey(lines[found], key) && Times(lines[..found], key) == 0
    ensures found < 0 ==> Times(Top(lines), key) == 0
    ensures found >= 0 ==> Times(Top(lines), key) > 0
    ensures found < 0 ==> if commented < 0 then NoExample(Top(lines), key) else IsLastExample(Top(lines), key, commented)
    ensures NoExample(Top(lines), key) ==> commented < 0
  {
    hide Parse, EndsSettings, Matches, IsKey, IsExample;
    found, commented := -1, -1;
    var i := 0;
    while i < sections && found < 0
      invariant 0 <= i <= sections && -1 <= commented < i + 1 && -1 <= found < sections && commented < sections
      invariant found < 0 ==> Times(lines[..i], key) == 0
      invariant found >= 0 ==> Matches(lines[found], key) && HasKey(lines[found], key) && Times(lines[..found], key) == 0
      invariant found >= 0 ==> Times(Top(lines), key) > 0
      invariant NoExample(Top(lines), key) ==> commented < 0
      invariant commented >= 0 ==> IsExample(Top(lines)[commented], key)
      invariant forall j | commented < j < i :: !IsExample(Top(lines)[j], key)
      decreases sections - i, if found < 0 then 1 else 0
    {
      MatchesIsKey(lines[i], key);
      if Matches(lines[i], key) {
        found := i;
        StandsAbove(lines, i, key);
      } else {
        assert Top(lines)[i] == lines[i];
        if IsExample(lines[i], key) {
          commented := i;
        }
        OneMoreLine(lines, i, key);
        i := i + 1;
      }
    }
  }

  lemma StandsAbove(lines: seq<string>, i: nat, key: string)
    requires i < Cut(lines) && HasKey(lines[i], key)
    ensures Times(Top(lines), key) > 0
  {
    hide HasKey;
    var top := Top(lines);
    OneMoreLine(top, i, key);
    assert top == top[..i + 1] + top[i + 1..];
    TimesSplit(top[..i + 1], top[i + 1..], key);
  }

  lemma MatchesIsKey(raw: string, key: string)
    requires IsKey(key)
    ensures Matches(raw, key) <==> HasKey(raw, key)
  {
    hide Parse, Matches, IsKey, EndsSettings;
    MatchesIffParsed(raw, key);
  }

  lemma OneMoreLine(lines: seq<string>, i: nat, key: string)
    requires i < |lines|
    ensures Times(lines[..i + 1], key) == Times(lines[..i], key) + if HasKey(lines[i], key) then 1 else 0
  {
    hide HasKey;
    assert lines[..i + 1] == lines[..i] + [lines[i]];
    TimesSplit(lines[..i], [lines[i]], key);
    assert [lines[i]][1..] == [];
  }

  /** The whole of an edit. */
  lemma Edits(
    keys: Keys, header: string, pre: seq<string>, was: seq<string>, now: seq<string>, post: seq<string>,
    key: string, value: string)
    requires IsEdit(header, pre, was, now, post, key, value)
    ensures var lines, r := pre + was + post, pre + now + post;
            && TopLevelSettings(keys, r)
               == (if Repeats(keys, lines, key) then TopLevelSettings(keys, lines)
                   else TopLevelSettings(keys, lines)[key := value])
            && SectionLines(keys, r) == SectionLines(keys, lines)
            && (key[0] != '[' || Top(post) == [] ==>
                  (forall k | k != key :: Keeps(keys, lines, r, k)) && (Tidy(lines, header) ==> Tidy(r, header)))
  {
    hide IsEdit, TopLevelSettings, SectionLines, Repeats, Keeps, Tidy, Top;
    assert key != "" by { EditHasKey(header, pre, was, now, post, key, value); }
    EditSettings(keys, header, pre, was, now, post, key, value);
    if key[0] != '[' || Top(post) == [] {
      forall k | k != key ensures Keeps(keys, pre + was + post, pre + now + post, k) {
        EditKeeps(keys, header, pre, was, now, post, key, value, k);
      }
      if Tidy(pre + was + post, header) {
        EditKeepsTidy(header, pre, was, now, post, key, value);
      }
    }
  }

  lemma EditHasKey(
    header: string, pre: seq<string>, was: seq<string>, now: seq<string>, post: seq<string>, key: string, value: string)
    requires IsEdit(header, pre, was, now, post, key, value)
    ensures key != ""
  {
  }

  /** Puts a value on the first line of its key above the sections, or on a new one there.
      The settings the text holds are those it held, with this one changed or added, unless
      the key is set again behind; its sections are untouched. So are all other keys,
      except that a new line that itself looks like a section must come last. */
  method SetTopLevelValue(keys: Keys, lines: seq<string>, key: string, value: string, header: string)
    returns (r: seq<string>)
    requires IsKey(key) && IsValue(value) && IsComment(header)
    ensures TopLevelSettings(keys, r)
         == if Repeats(keys, lines, key) then TopLevelSettings(keys, lines) else TopLevelSettings(keys, lines)[key := value]
    ensures SectionLines(keys, r) == SectionLines(keys, lines)
    ensures key[0] != '[' || (Tidy(lines, header) && NoExample(Top(lines), key)) ==>
              (forall k | k != key :: Keeps(keys, lines, r, k)) && (Tidy(lines, header) ==> Tidy(r, header))
    ensures PutRight(lines, r, key, value, header)
  {
    hide Parse, EndsSettings, Matches, IsValue, IsComment, TopLevelSettings, SectionLines, NoExample, Trim;
    hide Repeats, Keeps, Tidy, IsEdit, Times, Cut, HasKey, BlockEnds, IsLastExample, PutRight, Upper;
    var sections := SectionStart(lines);
    var found, commented := FindLine(lines, sections, key);
    if found >= 0 {
      var line := lines[found][..Equal(lines[found]) + 1] + " " + value;
      ReplacedIsEdit(header, lines, found, key, value);
      r := lines[..found] + [line] + lines[found + 1..];
      Edits(keys, header, lines[..found], [lines[found]], [line], lines[found + 1..], key, value);
      assert lines == lines[..found] + [lines[found]] + lines[found + 1..];
      OnItsLine(lines, r, found, key, value, header);
      return;
    }
    var line := Upper(key) + " = " + value;
    var end := HeaderEnd(lines, sections, header);
    var at := if commented >= 0 then commented + 1 else if end >= 0 then end else sections;
    var now := if commented >= 0 || end >= 0 then [line] else ["", header, line];
    AddedIsEdit(header, lines, at, now, key, value);
    r := lines[..at] + now + lines[at..];
    Edits(keys, header, lines[..at], [], now, lines[at..], key, value);
    assert lines == lines[..at] + [] + lines[at..];
    OnItsOwn(lines, r, commented, end, key, value, header);
  }

  lemma OnItsLine(lines: seq<string>, r: seq<string>, found: nat, key: string, value: string, header: string)
    requires found < Cut(lines) && HasKey(lines[found], key) && Times(lines[..found], key) == 0
    requires Times(Top(lines), key) > 0 && Equal(lines[found]) >= 0
    requires r == lines[..found] + [lines[found][..Equal(lines[found]) + 1] + " " + value] + lines[found + 1..]
    ensures PutRight(lines, r, key, value, header)
  {
    hide HasKey, Times, BlockEnds, IsLastExample, NoExample;
    var raw := lines[found];
    assert raw[..Equal(raw) + 1] + " " + value == raw[..Equal(raw)] + "= " + value;
  }

  lemma OnItsOwn(
    lines: seq<string>, r: seq<string>, commented: int, end: int, key: string, value: string, header: string)
    requires Times(Top(lines), key) == 0 && commented < Cut(lines) && end <= Cut(lines)
    requires if commented < 0 then NoExample(Top(lines), key) else IsLastExample(Top(lines), key, commented)
    requires (end < 0 <==> header !in Top(lines)) && (end >= 0 ==> BlockEnds(Top(lines), header, end))
    requires var at := if commented >= 0 then commented + 1 else if end >= 0 then end else Cut(lines);
             var line := Upper(key) + " = " + value;
             r == lines[..at] + (if commented >= 0 || end >= 0 then [line] else ["", header, line]) + lines[at..]
    ensures PutRight(lines, r, key, value, header)
  {
    hide HasKey, Times, BlockEnds, IsExample;
    if commented >= 0 {
      assert Top(lines)[commented] in Top(lines);
    }
  }

  lemma ReplacedIsEdit(header: string, lines: seq<string>, found: nat, key: string, value: string)
    requires IsKey(key) && IsValue(value) && IsComment(header) && found < Cut(lines)
    requires Matches(lines[found], key) && HasKey(lines[found], key) && Times(lines[..found], key) == 0
    ensures Equal(lines[found]) > 0 && key[0] != '['
    ensures IsEdit(header, lines[..found], [lines[found]], [lines[found][..Equal(lines[found]) + 1] + " " + value],
                   lines[found + 1..], key, value)
  {
    hide Parse, EndsSettings, Matches, IsValue, IsComment;
    SameLine(lines[found], key, value);
    MatchesIffParsed(lines[found], key);
    assert lines[found] == Top(lines)[found];
    forall line | line in lines[..found] ensures !EndsSettings(line) {
      assert line in Top(lines);
    }
    HeaderIsText(header);
  }

  lemma HeaderIsText(header: string)
    requires IsComment(header)
    ensures header != ""
  {
  }

  lemma AddedIsEdit(header: string, lines: seq<string>, at: nat, now: seq<string>, key: string, value: string)
    requires IsKey(key) && IsValue(value) && IsComment(header) && at <= Cut(lines) && Times(Top(lines), key) == 0
    requires var line := Upper(key) + " = " + value;
             now == [line] || (now == ["", header, line] && at == Cut(lines) && header !in Top(lines))
    ensures IsEdit(header, lines[..at], [], now, lines[at..], key, value)
    ensures at == Cut(lines) ==> Top(lines[at..]) == []
  {
    hide Parse, EndsSettings, IsValue, IsComment, HasKey;
    NewLine(key, value);
    HeaderIsText(header);
    assert lines == lines[..at] + lines[at..];
    forall line | line in lines[..at] ensures !EndsSettings(line) {
      assert line in Top(lines);
    }
    CutSplits(lines[..at], lines[at..]);
    TimesSplit(lines[..at], Top(lines[at..]), key);
  }

  // ---- Removing the lines of a key ----

  /** What a reading forgets of a key, it could have forgotten at any time. */
  lemma {:induction false} ForgettingCommutes(keys: Keys, r: Reading, t: Reading, lines: seq<string>, key: string)
    requires r.area == t.area && r.sections == t.sections && r.settings - {key} == t.settings - {key}
    ensures var a, b := Read(keys, r, lines), Read(keys, t, lines);
            a.sections == b.sections && a.settings - {key} == b.settings - {key}
    decreases |lines|
  {
    hide Parse, Trim, Owned;
    if lines != [] {
      LineForgets(keys, r, t, lines[0], key);
      ForgettingCommutes(keys, ReadLine(keys, r, lines[0]), ReadLine(keys, t, lines[0]), lines[1..], key);
    }
  }

  lemma {:induction false} NeverSet(keys: Keys, r: Reading, lines: seq<string>, key: string)
    requires SetsNo(keys, r.area, lines, key) && key !in r.settings
    ensures key !in Read(keys, r, lines).settings
    decreases |lines|
  {
    hide Parse, Trim, Owned;
    if lines != [] {
      NeverSet(keys, ReadLine(keys, r, lines[0]), lines[1..], key);
    }
  }

  /** Nothing but lines of this key above the sections may be missing. */
  ghost predicate LinesDropped(keys: Keys, lines: seq<string>, r: seq<string>, key: string) {
    && TopLevelSettings(keys, r) - {key} == TopLevelSettings(keys, lines) - {key}
    && (!SetsNo(keys, Settings, Bottom(lines), key) ==> TopLevelSettings(keys, r) == TopLevelSettings(keys, lines))
    && SectionLines(keys, r) == SectionLines(keys, lines) && Bottom(r) == Bottom(lines)
    && (forall k | k != key :: Keeps(keys, lines, r, k))
    && forall header | Tidy(lines, header) :: Tidy(r, header)
  }

  lemma DropsOne(keys: Keys, pre: seq<string>, line: string, post: seq<string>, key: string)
    requires NoSection(pre) && HasKey(line, key) && !EndsSettings(line)
    ensures LinesDropped(keys, pre + [line] + post, pre + post, key)
  {
    hide Parse, Trim, EndsSettings, SetsNo, Owned, Times, Cut, Top, Bottom, Tidy, NoExample, IsExample;
    CutSplits(pre, post);
    CutSplits(pre + [line], post);
    DropReads(keys, pre, line, post, key);
    forall k | k != key ensures Keeps(keys, pre + [line] + post, pre + post, k) {
      DropKeeps(keys, pre, line, post, k);
    }
    forall header | Tidy(pre + [line] + post, header) ensures Tidy(pre + post, header) {
      DropKeepsTidy(pre, line, post, header);
    }
  }

  lemma DropReads(keys: Keys, pre: seq<string>, line: string, post: seq<string>, key: string)
    requires NoSection(pre) && HasKey(line, key) && !EndsSettings(line)
    ensures TopLevelSettings(keys, pre + post) - {key} == TopLevelSettings(keys, pre + [line] + post) - {key}
    ensures !SetsNo(keys, Settings, Bottom(post), key) ==>
              TopLevelSettings(keys, pre + post) == TopLevelSettings(keys, pre + [line] + post)
    ensures SectionLines(keys, pre + post) == SectionLines(keys, pre + [line] + post)
  {
    hide Parse, Trim, EndsSettings, SetsNo, Owned, Times, Cut;
    var r, value := Read(keys, AT_START, pre), Parse(line).value;
    AreaStays(keys, AT_START, pre);
    ReadAppend(keys, AT_START, pre, post);
    ReadAppend(keys, AT_START, pre, [line]);
    ReadAppend(keys, AT_START, pre + [line], post);
    OneSetting(keys, r, [line], key, value);
    assert r.settings[key := value] - {key} == r.settings - {key};
    ForgettingCommutes(keys, r, Read(keys, r, [line]), post, key);
    assert Top(post) + Bottom(post) == post;
    SetsNoSplits(keys, Top(post), Bottom(post), key);
    if !SetsNo(keys, Settings, Bottom(post), key) {
      SetAgain(keys, r, Read(keys, r, [line]), post, key);
    }
  }

  lemma DropKeeps(keys: Keys, pre: seq<string>, line: string, post: seq<string>, k: string)
    requires NoSection(pre) && !HasKey(line, k) && !EndsSettings(line)
    ensures Keeps(keys, pre + [line] + post, pre + post, k)
  {
    hide HasKey, EndsSettings, SetsNo, Cut, Top, Bottom, IsExample;
    CutSplits(pre, post);
    CutSplits(pre + [line], post);
    TimesThree(pre, [line], Top(post), k);
    TimesSplit(pre, Top(post), k);
  }

  lemma DropKeepsTidy(pre: seq<string>, line: string, post: seq<string>, header: string)
    requires NoSection(pre) && !EndsSettings(line) && Tidy(pre + [line] + post, header)
    ensures Tidy(pre + post, header)
  {
    hide EndsSettings, Cut, Top, Bottom, Trim;
    CutSplits(pre, post);
    CutSplits(pre + [line], post);
    var before, after := pre + [line] + Top(post), pre + Top(post);
    forall i, j | 0 <= i < j < |after| && after[i] == header ensures Trim(after[j]) != "" {
      var i', j' := if i < |pre| then i else i + 1, if j < |pre| then j else j + 1;
      assert before[i'] == after[i] && before[j'] == after[j];
    }
  }

  /** Drops the line of a key above the sections, every one of them: the text no longer
      holds that setting, unless a section holds it, and holds every other. */
  method RemoveTopLevelLine(keys: Keys, lines: seq<string>, key: string) returns (r: seq<string>)
    requires IsKey(key)
    ensures TopLevelSettings(keys, r)
         == if SetsNo(keys, Settings, Bottom(lines), key) then TopLevelSettings(keys, lines) - {key}
            else TopLevelSettings(keys, lines)
    ensures SectionLines(keys, r) == SectionLines(keys, lines)
    ensures (forall k | k != key :: Keeps(keys, lines, r, k)) && forall header | Tidy(lines, header) :: Tidy(r, header)
    ensures r == WithoutKey(Top(lines), key) + Bottom(lines)
  {
    hide Parse, EndsSettings, Matches, IsKey, Trim, LinesDropped, SetsNo, Times, HasKey, WithoutKey, Cut;
    r := lines;
    NoneDropped(keys, lines, key);
    var i := 0;
    ghost var done: nat := 0;
    assert WithoutKey(lines[..0], key) == [] by { NothingLeft(lines, key); }
    while i < |r| && !EndsSettings(r[i])
      invariant 0 <= i <= |r| && Times(r[..i], key) == 0 && NoSection(r[..i])
      invariant LinesDropped(keys, lines, r, key)
      invariant done <= |lines| && NoSection(lines[..done])
      invariant r[..i] == WithoutKey(lines[..done], key) && r[i..] == lines[done..]
      decreases |r| - i
    {
      MatchesIsKey(r[i], key);
      assert r[i] == r[i..][0] == lines[done];
      OneMoreLeft(lines, done, key);
      assert lines[..done + 1] == lines[..done] + [lines[done]];
      assert r[i + 1..] == lines[done + 1..] by { assert r[i..][1..] == lines[done..][1..]; }
      if Matches(r[i], key) {
        ghost var before := r;
        assert r == r[..i] + [r[i]] + r[i + 1..];
        DropsOne(keys, r[..i], r[i], r[i + 1..], key);
        r := r[..i] + r[i + 1..];
        DropsMore(keys, lines, before, r, key);
        assert r[..i] == before[..i];
      } else {
        OneMoreLine(r, i, key);
        assert r[..i + 1] == r[..i] + [r[i]];
        i := i + 1;
      }
      done := done + 1;
    }
    CutIs(r, i);
    assert done < |lines| ==> lines[done] == lines[done..][0] == r[i..][0];
    CutIs(lines, done);
    assert r == r[..i] + r[i..];
    AllDropped(keys, lines, r, key);
  }

  /** The lines that do not hold the key. */
  function WithoutKey(lines: seq<string>, key: string): seq<string> {
    if lines == [] then [] else
      var last := lines[|lines| - 1];
      WithoutKey(lines[..|lines| - 1], key) + if HasKey(last, key) then [] else [last]
  }

  lemma NothingLeft(lines: seq<string>, key: string)
    ensures WithoutKey(lines[..0], key) == []
  {
  }

  lemma OneMoreLeft(lines: seq<string>, i: nat, key: string)
    requires i < |lines|
    ensures WithoutKey(lines[..i + 1], key) == WithoutKey(lines[..i], key) + if HasKey(lines[i], key) then [] else [lines[i]]
  {
    hide HasKey;
    assert lines[..i + 1][..i] == lines[..i];
  }

  lemma NoneDropped(keys: Keys, lines: seq<string>, key: string)
    ensures LinesDropped(keys, lines, lines, key) && Times(lines[..0], key) == 0
  {
  }

  lemma DropsMore(keys: Keys, lines: seq<string>, r: seq<string>, t: seq<string>, key: string)
    requires LinesDropped(keys, lines, r, key) && LinesDropped(keys, r, t, key)
    ensures LinesDropped(keys, lines, t, key)
  {
    hide SetsNo, Times, Top, Bottom, Tidy, NoExample, TopLevelSettings, SectionLines;
    forall k | k != key ensures Keeps(keys, lines, t, k) {
      assert Keeps(keys, lines, r, k) && Keeps(keys, r, t, k);
    }
  }

  lemma AllDropped(keys: Keys, lines: seq<string>, r: seq<string>, key: string)
    requires LinesDropped(keys, lines, r, key) && Times(Top(r), key) == 0
    ensures TopLevelSettings(keys, r)
         == if SetsNo(keys, Settings, Bottom(lines), key) then TopLevelSettings(keys, lines) - {key}
            else TopLevelSettings(keys, lines)
    ensures SectionLines(keys, r) == SectionLines(keys, lines)
    ensures (forall k | k != key :: Keeps(keys, lines, r, k)) && forall header | Tidy(lines, header) :: Tidy(r, header)
  {
    hide SetsNo, Times, Cut, Keeps, Tidy, EndsSettings, Parse;
    if SetsNo(keys, Settings, Bottom(lines), key) {
      assert Top(r) + Bottom(r) == r;
      SetsNoSplits(keys, Top(r), Bottom(r), key);
      NeverSet(keys, AT_START, r, key);
      assert TopLevelSettings(keys, r) - {key} == TopLevelSettings(keys, r);
    }
  }

  // ---- A key on two lines ----

  /** With one key on two lines the last one counts, and the first is the one edited. */
  lemma TwoLinesRepeat(keys: Keys, key: string, first: string, last: string)
    requires IsKey(key) && key[0] != '[' && IsValue(first) && IsValue(last)
    ensures var lines := [Upper(key) + " = " + first, Upper(key) + " = " + last];
            Times(Top(lines), key) == 2 && Repeats(keys, lines, key) && TopLevelSettings(keys, lines) == map[key := last]
  {
    hide Parse, EndsSettings, IsKey, IsValue, Upper, Trim;
    NewLine(key, first);
    NewLine(key, last);
    var lines := [Upper(key) + " = " + first, Upper(key) + " = " + last];
    CutIs(lines, 2);
    OneMoreLine(lines, 0, key);
    OneMoreLine(lines, 1, key);
    assert lines[..2] == lines == Top(lines) && lines[..0] == [];
    OneSetting(keys, AT_START, lines[..1], key, first);
    OneSetting(keys, Read(keys, AT_START, lines[..1]), lines[1..], key, last);
    ReadAppend(keys, AT_START, lines[..1], lines[1..]);
    assert lines[..1] + lines[1..] == lines;
  }
}
