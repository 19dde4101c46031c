/** Reading and editing the lines of a configuration file (src/NgPost.cpp,
    splitConfigText, setTopLevelValue, removeTopLevelLine). */
module ConfigText {
  import opened Options

  datatype Block = Server | VpnProfile

  datatype Area = Settings | In(block: Block)

  /** What the parser makes of one line. */
  datatype Line = Skipped | Header(block: Block) | Pair(key: string, value: string)

  // ---- Strings ----

  predicate IsSpace(c: char) { c == ' ' || '\t' <= c <= '\r' }

  predicate Blank(s: string) { forall c | c in s :: IsSpace(c) }

  function TrimLeft(s: string): string {
    if s != [] && IsSpace(s[0]) then TrimLeft(s[1..]) else s
  }

  function TrimRight(s: string): string {
    if s != [] && IsSpace(s[|s| - 1]) then TrimRight(s[..|s| - 1]) else s
  }

  function Trim(s: string): string { TrimRight(TrimLeft(s)) }

  function LowerChar(c: char): char { if 'A' <= c <= 'Z' then c - 'A' + 'a' else c }

  function UpperChar(c: char): char { if 'a' <= c <= 'z' then c - 'a' + 'A' else c }

  function Lower(s: string): string { seq(|s|, i requires 0 <= i < |s| => LowerChar(s[i])) }

  function Upper(s: string): string { seq(|s|, i requires 0 <= i < |s| => UpperChar(s[i])) }

  /** The first '=' of the line, or -1. */
  function Equal(s: string): (i: int)
    ensures -1 <= i < |s|
    ensures i >= 0 ==> s[i] == '=' && '=' !in s[..i]
    ensures i < 0 ==> '=' !in s
  {
    if s == [] then -1 else if s[0] == '=' then 0 else
      var i := Equal(s[1..]);
      if i < 0 then -1 else
        assert s[..i + 1] == [s[0]] + s[1..][..i];
        i + 1
  }

  // ---- One line ----

  function Parse(raw: string): Line {
    var line := Trim(raw);
    if line == "" || line[0] == '#' || line[0] == '/' then Skipped
    else if line == "[server]" then Header(Server)
    else if line == "[vpn_profile]" then Header(VpnProfile)
    else
      var equal := Equal(line);
      if equal <= 0 then Skipped else Pair(Lower(Trim(line[..equal])), Trim(line[equal + 1..]))
  }

  /** The settings end where the first section starts, commented out or not. */
  predicate EndsSettings(raw: string) {
    var line := Trim(raw);
    line != "" && (line[0] == '[' || (|line| > 1 && line[0] == '#' && line[1] == '['))
  }

  /** What the editing functions compare to a key: the trimmed text before the '='. */
  function Name(raw: string): Option<string> {
    var equal := Equal(raw);
    if equal <= 0 then None else Some(Trim(raw[..equal]))
  }

  predicate Matches(raw: string, key: string) {
    Name(raw).Some? && Lower(Name(raw).value) == key
  }

  predicate IsExample(raw: string, key: string) {
    var name := Name(raw);
    name.Some? && name.value != "" && name.value[0] == '#' && Lower(Trim(name.value[1..])) == key
  }

  /** A key as the parser reports it. */
  predicate IsKey(key: string) {
    && key != "" && Lower(key) == key && '=' !in key
    && !IsSpace(key[0]) && !IsSpace(key[|key| - 1])
    && key[0] != '#' && key[0] != '/'
  }

  /** A value as the parser reports it. */
  predicate IsValue(value: string) { Trim(value) == value }

  // ---- Trimming ----

  lemma {:induction false} TrimLeftParts(s: string) returns (a: string)
    ensures s == a + TrimLeft(s) && Blank(a)
    ensures TrimLeft(s) != "" ==> !IsSpace(TrimLeft(s)[0])
  {
    if s != [] && IsSpace(s[0]) {
      var rest := TrimLeftParts(s[1..]);
      a := [s[0]] + rest;
    } else {
      a := "";
    }
  }

  lemma {:induction false} TrimRightParts(s: string) returns (b: string)
    ensures s == TrimRight(s) + b && Blank(b)
    ensures TrimRight(s) != "" ==> !IsSpace(TrimRight(s)[|TrimRight(s)| - 1])
  {
    if s != [] && IsSpace(s[|s| - 1]) {
      var rest := TrimRightParts(s[..|s| - 1]);
      b := rest + [s[|s| - 1]];
    } else {
      b := "";
    }
  }

  /** A string with no space at either end. */
  predicate Tight(s: string) { s == "" || (!IsSpace(s[0]) && !IsSpace(s[|s| - 1])) }

  lemma TrimParts(s: string) returns (a: string, b: string)
    ensures s == a + Trim(s) + b && Blank(a) && Blank(b) && Tight(Trim(s))
  {
    a := TrimLeftParts(s);
    b := TrimRightParts(TrimLeft(s));
  }

  lemma {:induction false} TrimLeftOf(a: string, t: string)
    requires Blank(a) && (t == "" || !IsSpace(t[0]))
    ensures TrimLeft(a + t) == t
  {
    if a != "" {
      assert (a + t)[1..] == a[1..] + t;
      TrimLeftOf(a[1..], t);
    } else {
      assert a + t == t;
    }
  }

  lemma {:induction false} TrimRightOf(t: string, b: string)
    requires Blank(b) && (t == "" || !IsSpace(t[|t| - 1]))
    ensures TrimRight(t + b) == t
  {
    if b != "" {
      assert (t + b)[..|t + b| - 1] == t + b[..|b| - 1];
      TrimRightOf(t, b[..|b| - 1]);
    } else {
      assert t + b == t;
    }
  }

  /** Trimming takes off exactly the blanks around a tight string. */
  lemma TrimIs(a: string, t: string, b: string)
    requires Blank(a) && Blank(b) && Tight(t)
    ensures Trim(a + t + b) == t
  {
    assert a + t + b == a + (t + b);
    if t == "" {
      BlankTrims(a + b);
      assert a + t + b == a + b;
    } else {
      TrimLeftOf(a, t + b);
      TrimRightOf(t, b);
    }
  }

  lemma {:induction false} BlankTrims(a: string)
    requires Blank(a)
    ensures Trim(a) == "" && TrimLeft(a) == ""
  {
    if a != "" {
      BlankTrims(a[1..]);
    }
  }

  lemma TrimSame(a: string, s: string)
    requires Blank(a)
    ensures Trim(a + s) == Trim(s)
  {
    var x, y := TrimParts(s);
    assert a + s == (a + x) + Trim(s) + y;
    TrimIs(a + x, Trim(s), y);
  }

  /** The '=' of a line whose front has none. */
  lemma {:induction false} EqualAfter(front: string, back: string)
    requires '=' !in front
    ensures Equal(front + back) == if Equal(back) < 0 then -1 else |front| + Equal(back)
  {
    if front != "" {
      assert (front + back)[1..] == front[1..] + back;
      EqualAfter(front[1..], back);
    } else {
      assert front + back == back;
    }
  }

  lemma {:induction false} EqualBefore(front: string, back: string)
    requires Equal(front) >= 0
    ensures Equal(front + back) == Equal(front)
  {
    assert (front + back)[0] == front[0];
    if front[0] != '=' {
      assert (front + back)[1..] == front[1..] + back;
      EqualBefore(front[1..], back);
    }
  }

  lemma EqualOfTrimmed(raw: string, a: string, b: string)
    requires raw == a + Trim(raw) + b && Blank(a) && Blank(b)
    ensures Equal(raw) == if Equal(Trim(raw)) < 0 then -1 else |a| + Equal(Trim(raw))
  {
    var t := Trim(raw);
    assert raw == a + (t + b);
    EqualAfter(a, t + b);
    if Equal(t) < 0 {
      assert '=' !in b;
      EqualAfter(t, b);
    } else {
      EqualBefore(t, b);
    }
  }

  // ---- Editors and parser agree ----

  /** The parser in terms of the trimmed line. */
  lemma ParseIs(raw: string)
    ensures var t := Trim(raw);
            && (Parse(raw).Pair? <==> t != "" && t[0] != '#' && t[0] != '/' && Equal(t) > 0)
            && (Parse(raw).Pair? ==>
                  && Parse(raw) == Pair(Lower(Trim(t[..Equal(t)])), Trim(t[Equal(t) + 1..]))
                  && (EndsSettings(raw) <==> t[0] == '['))
  {
    hide Trim, Lower, Equal;
    var t := Trim(raw);
    assert Equal(t) >= 0 ==> '=' in t;
    assert '=' !in "[server]" && '=' !in "[vpn_profile]";
  }

  lemma LowerFirst(s: string)
    requires s != ""
    ensures Lower(s) != "" && (Lower(s)[0] == s[0] || ('A' <= s[0] <= 'Z' && 'a' <= Lower(s)[0] <= 'z'))
  {
  }

  /** The line that the editors take for the line of a key is the one that gives the
      parser its value. */
  lemma MatchesIffParsed(raw: string, key: string)
    requires IsKey(key)
    ensures Matches(raw, key) <==> Parse(raw).Pair? && Parse(raw).key == key
    ensures Matches(raw, key) ==> (EndsSettings(raw) <==> key[0] == '[')
  {
    hide Parse, EndsSettings, Trim, TrimLeft, TrimRight, Equal;
    var a, b := TrimParts(raw);
    var t := Trim(raw);
    ParseIs(raw);
    EqualOfTrimmed(raw, a, b);
    if Equal(t) > 0 {
      assert raw[..Equal(raw)] == a + t[..Equal(t)];
      TrimSame(a, t[..Equal(t)]);
      NameStarts(t, Equal(t));
      LowerFirst(Trim(t[..Equal(t)]));
    } else if Equal(t) == 0 {
      assert raw[..Equal(raw)] == a;
      BlankTrims(a);
    }
  }

  lemma {:induction false} TrimRightKeepsFirst(s: string)
    requires s != "" && !IsSpace(s[0])
    ensures TrimRight(s) != "" && TrimRight(s)[0] == s[0]
  {
    if |s| > 1 && IsSpace(s[|s| - 1]) {
      TrimRightKeepsFirst(s[..|s| - 1]);
    }
  }

  /** The name on a tight line starts as the line does. */
  lemma NameStarts(t: string, equal: int)
    requires Tight(t) && 0 < equal < |t|
    ensures Trim(t[..equal]) != "" && Trim(t[..equal])[0] == t[0]
  {
    TrimRightKeepsFirst(t[..equal]);
  }

  /** Parsing a line whose tight part is a name, blanks, and '=' with this behind it. */
  lemma PairIsParsed(a: string, name: string, b: string, back: string, c: string)
    requires Blank(a) && Blank(b) && Blank(c) && Tight(name) && name != "" && '=' !in name
    requires name[0] != '#' && name[0] != '/'
    requires back == "" || !IsSpace(back[|back| - 1])
    ensures var raw := a + (name + b + "=" + back) + c;
            Parse(raw) == Pair(Lower(name), Trim(back)) && (EndsSettings(raw) <==> name[0] == '[')
  {
    hide TrimLeft, TrimRight, Trim, Equal, Parse, EndsSettings, Lower;
    var t := name + b + "=" + back;
    assert t[0] == name[0] && t[|t| - 1] == (if back == "" then '=' else back[|back| - 1]);
    TrimIs(a, t, c);
    NameThenEqual(name, b, back);
    ParseIs(a + t + c);
  }

  lemma NameThenEqual(name: string, b: string, back: string)
    requires Blank(b) && Tight(name) && '=' !in name
    ensures var t := name + b + "=" + back;
            && Equal(t) == |name + b| && Trim(t[..|name + b|]) == name && t[|name + b| + 1..] == back
  {
    hide TrimLeft, TrimRight, Trim;
    var t := name + b + "=" + back;
    assert '=' !in b;
    assert t == (name + b) + ("=" + back);
    EqualAfter(name + b, "=" + back);
    assert t[..|name + b|] == name + b && t[|name + b| + 1..] == back;
    TrimIs("", name, b);
    assert "" + name + b == name + b;
  }

  /** A line in the form the editors write is read back as the pair written. */
  lemma WrittenIsRead(front: string, key: string, value: string)
    requires IsKey(key) && IsValue(value) && '=' !in front && Trim(front) != "" && Lower(Trim(front)) == key
    ensures Parse(front + "= " + value) == Pair(key, value)
    ensures EndsSettings(front + "= " + value) <==> key[0] == '['
  {
    hide Trim, TrimLeft, TrimRight, Parse, EndsSettings, Lower, IsKey;
    var raw := front + "= " + value;
    var a, b := TrimParts(front);
    var name := Trim(front);
    NameIsPlain(front, key);
    assert Trim("") == "" by { BlankTrims(""); }
    if value == "" {
      PairIsParsed(a, name, b, "", " ");
      assert raw == a + (name + b + "=" + "") + " ";
    } else {
      TightValue(value);
      PairIsParsed(a, name, b, " " + value, "");
      assert raw == a + (name + b + "=" + (" " + value)) + "";
      TrimSame(" ", value);
    }
  }

  lemma NameIsPlain(front: string, key: string)
    requires IsKey(key) && '=' !in front && Trim(front) != "" && Lower(Trim(front)) == key
    ensures var name := Trim(front);
            Tight(name) && '=' !in name && name[0] != '#' && name[0] != '/' && (name[0] == '[' <==> key[0] == '[')
  {
    var a, b := TrimParts(front);
    LowerFirst(Trim(front));
  }

  lemma TightValue(value: string)
    requires IsValue(value)
    ensures Tight(value)
  {
    var x, y := TrimParts(value);
  }

  /** What the parser reports is a key and a value. */
  lemma ParsedIsPair(raw: string)
    requires Parse(raw).Pair?
    ensures IsKey(Parse(raw).key) && IsValue(Parse(raw).value)
  {
    hide Parse, EndsSettings, Trim, TrimLeft, TrimRight, Lower, Equal, IsKey;
    ParseIs(raw);
    var a, b := TrimParts(raw);
    var t := Trim(raw);
    var equal := Equal(t);
    NameStarts(t, equal);
    var x, y := TrimParts(t[..equal]);
    var c, d := TrimParts(t[equal + 1..]);
    TrimIs("", Trim(t[equal + 1..]), "");
    assert "" + Trim(t[equal + 1..]) + "" == Trim(t[equal + 1..]);
    LowerIsKey(Trim(t[..equal]));
  }

  lemma LowerIsKey(name: string)
    requires name != "" && Tight(name) && '=' !in name && name[0] != '#' && name[0] != '/'
    ensures IsKey(Lower(name))
  {
  }

  /** Commenting a line of the key out makes it an example of the key, and nothing else
      does: an example is such a line behind the sign. */
  lemma ExampleIsCommentedLine(raw: string, key: string)
    requires IsKey(key)
    ensures IsExample("#" + raw, key) <==> Matches(raw, key)
  {
    hide TrimLeft, TrimRight, Trim, Lower;
    var line := "#" + raw;
    assert line[1..] == raw;
    EqualAfter("#", raw);
    if Equal(raw) > 0 {
      assert line[..Equal(raw) + 1] == "#" + raw[..Equal(raw)];
      SignStays(raw[..Equal(raw)]);
    } else if Equal(raw) == 0 {
      assert line[..1] == "#" + "";
      SignStays("");
      EmptyIsNoKey(key);
    }
  }

  /** Trimming takes blanks off behind the sign only. */
  lemma SignStays(s: string)
    ensures var t := Trim("#" + s); t != "" && t[0] == '#' && Trim(t[1..]) == Trim(s)
  {
    hide TrimLeft, TrimRight, Trim;
    var a, b := TrimParts(s);
    var core := a + Trim(s);
    if Trim(s) == "" {
      TrimIs("", "#", s);
      assert "" + "#" + s == "#" + s;
      BlankIsEmpty(s);
    } else {
      TrimIs("", "#" + core, b);
      assert "" + ("#" + core) + b == "#" + s;
      assert ("#" + core)[1..] == core;
      TrimIs(a, Trim(s), "");
      assert a + Trim(s) + "" == core;
    }
  }

  lemma BlankIsEmpty(s: string)
    requires Trim(s) == ""
    ensures Blank(s) && Trim("#"[1..]) == ""
  {
    var a, b := TrimParts(s);
  }

  lemma EmptyIsNoKey(key: string)
    requires IsKey(key)
    ensures Lower(Trim("")) != key
  {
    BlankTrims("");
  }
}
