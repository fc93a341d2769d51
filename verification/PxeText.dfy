/**
 grub.cfg as text: how its readers find the default, the timeout and the menu entries in a line,
 and what their writers put there. It is proved that the edits of the text are the edits of the
 file as PxeFlip takes it, so its theorems hold of the text.
 */
module PxeText {
  import opened Basics
  import opened Decimal
  import opened Pxe
  import opened PxeFlip

  const LINUX: string := "linuxefi"

  predicate IsBlank(c: char) { c in {' ', '\t', '\r', '\U{0C}'} }

  /** Behind the blanks from i on. */
  function Blanks(s: string, i: nat): (j: nat)
    requires i <= |s|
    ensures i <= j <= |s| && (forall k :: i <= k < j ==> IsBlank(s[k])) && (j < |s| ==> !IsBlank(s[j]))
    decreases |s| - i
  {
    if i < |s| && IsBlank(s[i]) then Blanks(s, i + 1) else i
  }

  /** Behind the word from i on. */
  function WordEnd(s: string, i: nat): (j: nat)
    requires i <= |s|
    ensures i <= j <= |s| && (forall k :: i <= k < j ==> !IsBlank(s[k])) && (j < |s| ==> IsBlank(s[j]))
    decreases |s| - i
  {
    if i < |s| && !IsBlank(s[i]) then WordEnd(s, i + 1) else i
  }

  /** The next quote from i on; the length of the line when there is none. */
  function NextQuote(s: string, i: nat, q: char): (j: nat)
    requires i <= |s|
    ensures i <= j <= |s| && (forall k :: i <= k < j ==> s[k] != q) && (j < |s| ==> s[j] == q)
    decreases |s| - i
  {
    if i < |s| && s[i] != q then NextQuote(s, i + 1, q) else i
  }

  predicate Contains(s: string, p: string) { exists i :: 0 <= i <= |s| && At(s, p, i) }

  /** A keyword, blanks, and where what follows them begins. */
  function AfterWord(s: string, word: string): (r: Option<nat>)
    ensures r.Some? ==> r.value <= |s|
  {
    var i := Blanks(s, 0);
    if !At(s, word, i) then None
    else
      var j := Blanks(s, i + |word|);
      if j == i + |word| then None else Some(j)
  }

  function AfterKey(s: string, key: string): (r: Option<nat>)
    ensures r.Some? ==> r.value <= |s|
  {
    var j := AfterWord(s, "set");
    if j.Some? && At(s, key, j.value) then Some(j.value + |key|) else None
  }

  // ---------------------------------------------------------------- the readers

  /** A value in a line, and the end of what a rewriting replaces. */
  datatype Span = Span(from: nat, to: nat, end: nat)

  function InQuotes(s: string, k: nat, q: char): (r: Option<Span>)
    ensures r.Some? ==> r.value.from <= r.value.to < r.value.end <= |s|
  {
    if k < |s| && s[k] == q && NextQuote(s, k + 1, q) < |s|
    then Some(Span(k + 1, NextQuote(s, k + 1, q), NextQuote(s, k + 1, q) + 1)) else None
  }

  /** The value of a `set default=` line: in single quotes, in double quotes, or a bare word. */
  function DefaultSpan(s: string): (r: Option<Span>)
    ensures r.Some? ==> r.value.from <= r.value.to <= r.value.end <= |s|
  {
    var k := AfterKey(s, "default=");
    if k.None? then None
    else if InQuotes(s, k.value, '\'').Some? then InQuotes(s, k.value, '\'')
    else if InQuotes(s, k.value, '"').Some? then InQuotes(s, k.value, '"')
    else
      var j := WordEnd(s, k.value);
      if j == k.value then None else Some(Span(k.value, j, j))
  }

  function TimeoutSpan(s: string): (r: Option<Span>)
    ensures r.Some? ==> r.value.from < r.value.to == r.value.end <= |s|
  {
    var k := AfterKey(s, "timeout=");
    if k.None? || WordEnd(s, k.value) == k.value then None
    else Some(Span(k.value, WordEnd(s, k.value), WordEnd(s, k.value)))
  }

  /** The name of a menu entry: between single quotes, and not empty. */
  function MenuSpan(s: string): (r: Option<Span>)
    ensures r.Some? ==>
        0 < r.value.from < r.value.to < r.value.end <= |s| && s[r.value.from - 1] == '\'' && s[r.value.to] == '\''
    ensures r.Some? ==> '\'' !in s[r.value.from..r.value.to]
  {
    var k := AfterWord(s, "menuentry");
    if k.None? then None
    else
      var q := InQuotes(s, k.value, '\'');
      if q.None? || q.value.from == q.value.to then None else q
  }

  function ValueIn(s: string, p: Span): string
    requires p.from <= p.to <= |s|
  {
    s[p.from..p.to]
  }

  function Read(s: string): Line {
    if DefaultSpan(s).Some? then Default(ValueIn(s, DefaultSpan(s).value))
    else if TimeoutSpan(s).Some? then Timeout(ValueIn(s, TimeoutSpan(s).value))
    else if MenuSpan(s).Some? then Entry(ValueIn(s, MenuSpan(s).value), s, Contains(s, LINUX))
    else Other(s)
  }

  type Lines = seq<string>

  function ReadAll(ls: Lines): (c: Cfg)
    ensures |c| == |ls| && forall i :: 0 <= i < |ls| ==> c[i] == Read(ls[i])
  {
    seq(|ls|, i requires 0 <= i < |ls| => Read(ls[i]))
  }

  /** How the writer finds an entry's kernel line: by its quoted name and the loader's word, anywhere in the line. */
  predicate KernelText(s: string, name: string) { Contains(s, "'" + name + "'") && Contains(s, LINUX) }

  function TextEntry(ls: Lines, name: string): (k: nat)
    ensures k <= |ls|
    ensures k < |ls| ==> KernelText(ls[k], name)
    ensures forall i :: 0 <= i < k ==> !KernelText(ls[i], name)
  {
    if ls == [] || KernelText(ls[0], name) then 0 else 1 + TextEntry(ls[1..], name)
  }

  // ---------------------------------------------------------------- the writers

  /** The line up to the end of the value is written afresh; what follows it stays. */
  function WriteDefault(s: string, name: string): string
    requires DefaultSpan(s).Some?
  {
    "set default='" + name + "'" + s[DefaultSpan(s).value.end..]
  }

  function WriteTimeout(s: string, value: string): string
    requires TimeoutSpan(s).Some?
  {
    s[..TimeoutSpan(s).value.from] + value + s[TimeoutSpan(s).value.to..]
  }

  function TextPoint(ls: Lines, name: string): (r: Lines)
    ensures |r| == |ls|
    ensures forall i :: 0 <= i < |ls| ==> r[i] == if DefaultSpan(ls[i]).Some? then WriteDefault(ls[i], name) else ls[i]
  {
    seq(|ls|, i requires 0 <= i < |ls| => if DefaultSpan(ls[i]).Some? then WriteDefault(ls[i], name) else ls[i])
  }

  function TextTime(ls: Lines, value: string): (r: Lines)
    ensures |r| == |ls|
    ensures forall i :: 0 <= i < |ls| ==> r[i] == if TimeoutSpan(ls[i]).Some? then WriteTimeout(ls[i], value) else ls[i]
  {
    seq(|ls|, i requires 0 <= i < |ls| => if TimeoutSpan(ls[i]).Some? then WriteTimeout(ls[i], value) else ls[i])
  }

  function TextArm(ls: Lines, name: string, args: string): (r: Lines)
    ensures |r| == |ls|
  {
    var k := TextEntry(ls, name);
    if k < |ls| && Segment(ls[k]).Some? then ls[k := WithArgs(ls[k], args)] else ls
  }

  // ------------------------------------------------------------ one line at a time

  lemma BlanksAre(s: string, i: nat, j: nat)
    requires i <= j <= |s| && (forall k :: i <= k < j ==> IsBlank(s[k])) && (j < |s| ==> !IsBlank(s[j]))
    ensures Blanks(s, i) == j
  {
  }

  lemma WordEndIs(s: string, i: nat, j: nat)
    requires i <= j <= |s| && (forall k :: i <= k < j ==> !IsBlank(s[k])) && (j < |s| ==> IsBlank(s[j]))
    ensures WordEnd(s, i) == j
  {
  }

  lemma NextQuoteIs(s: string, i: nat, j: nat, q: char)
    requires i <= j < |s| && (forall k :: i <= k < j ==> s[k] != q) && s[j] == q
    ensures NextQuote(s, i, q) == j
  {
  }

  /** A word is found by what stands before the place behind it, and one more character that is no blank. */
  lemma SameAfterWord(s: string, t: string, word: string, j: nat)
    requires word != "" && !IsBlank(word[0])
    requires AfterWord(s, word) == Some(j) && j < |s| && j < |t| && s[..j] == t[..j] && !IsBlank(t[j])
    ensures AfterWord(t, word) == Some(j)
  {
    var i := Blanks(s, 0);
    assert forall k :: 0 <= k < j ==> s[..j][k] == s[k] && t[..j][k] == t[k];
    assert s[i] == s[i..i + |word|][0];
    assert t[i..i + |word|] == s[..j][i..i + |word|] == s[i..i + |word|];
    BlanksAre(t, 0, i);
    BlanksAre(t, i + |word|, j);
  }

  /** A line cannot begin with two different words. */
  lemma OneWord(s: string)
    ensures AfterWord(s, "set").Some? ==> AfterWord(s, "menuentry").None?
    ensures AfterKey(s, "default=").Some? ==> AfterKey(s, "timeout=").None?
  {
    var i := Blanks(s, 0);
    if At(s, "set", i) { assert s[i] == s[i..i + 3][0] == 's'; }
    if At(s, "menuentry", i) { assert s[i] == s[i..i + 9][0] == 'm'; }
    if AfterWord(s, "set").Some? {
      var j := AfterWord(s, "set").value;
      if At(s, "default=", j) { assert s[j] == s[j..j + 8][0] == 'd'; }
      if At(s, "timeout=", j) { assert s[j] == s[j..j + 8][0] == 't'; }
    }
  }

  /** The default written is the default read, and the line holds no other reader's value. */
  lemma DefaultWritten(s: string, name: string)
    requires DefaultSpan(s).Some? && '\'' !in name
    ensures var t := WriteDefault(s, name);
            DefaultSpan(t) == Some(Span(13, 13 + |name|, 14 + |name|)) && Read(t) == Default(name)
  {
    var head := "set default='";
    var t := WriteDefault(s, name);
    var rest := s[DefaultSpan(s).value.end..];
    hide DefaultSpan;
    assert t == head + (name + "'" + rest);
    DefaultAfresh(t, name, rest);
  }

  lemma DefaultAfresh(t: string, name: string, rest: string)
    requires t == "set default='" + name + "'" + rest && '\'' !in name
    ensures DefaultSpan(t) == Some(Span(13, 13 + |name|, 14 + |name|)) && Read(t) == Default(name)
  {
    var head := "set default='";
    assert forall k :: 0 <= k < 13 ==> t[k] == head[k];
    BlanksAre(t, 0, 0);
    assert t[0..3] == "set";
    BlanksAre(t, 3, 4);
    assert AfterWord(t, "set") == Some(4);
    assert t[4..12] == "default=";
    assert forall k :: 0 <= k < |name| ==> t[13 + k] == name[k];
    assert t[13 + |name|] == '\'';
    NextQuoteIs(t, 13, 13 + |name|, '\'');
    assert t[13..13 + |name|] == name;
  }

  predicate IsWord(v: string) { v != "" && forall k :: 0 <= k < |v| ==> !IsBlank(v[k]) }

  lemma SameAfterKey(s: string, t: string, key: string, k: nat)
    requires key != "" && !IsBlank(key[0])
    requires AfterKey(s, key) == Some(k) && k <= |s| && k <= |t| && s[..k] == t[..k]
    ensures AfterKey(t, key) == Some(k)
  {
    var j := AfterWord(s, "set").value;
    assert s[j] == s[j..k][0];
    assert t[..j] == t[..k][..j] == s[..j] && t[j] == t[..k][j];
    SameAfterWord(s, t, "set", j);
    assert t[j..k] == t[..k][j..k] == s[j..k];
    hide AfterWord;
  }

  /** The timeout written is the timeout read. */
  lemma TimeoutWritten(s: string, value: string)
    requires TimeoutSpan(s).Some? && IsWord(value)
    ensures var p, t := TimeoutSpan(s).value, WriteTimeout(s, value);
            && TimeoutSpan(t) == Some(Span(p.from, p.from + |value|, p.from + |value|))
            && ValueIn(t, TimeoutSpan(t).value) == value
  {
    var p, t := TimeoutSpan(s).value, WriteTimeout(s, value);
    var head, rest := s[..p.from], s[p.to..];
    assert t == head + (value + rest) && t[..p.from] == head;
    SameAfterKey(s, t, "timeout=", p.from);
    hide AfterKey;
    forall k | 0 <= k < |value| ensures t[p.from + k] == value[k] && !IsBlank(t[p.from + k]) {}
    if p.from + |value| < |t| {
      assert t[p.from + |value|] == rest[0] == s[p.to];
    }
    WordEndIs(t, p.from, p.from + |value|);
    assert t[p.from..p.from + |value|] == value;
  }

  /** Writing the old one back gives the very line. */
  lemma TimeoutBack(s: string, value: string)
    requires TimeoutSpan(s).Some? && IsWord(value)
    ensures var p, t := TimeoutSpan(s).value, WriteTimeout(s, value);
            && TimeoutSpan(t).Some? && IsWord(ValueIn(s, p)) && WriteTimeout(t, ValueIn(s, p)) == s
  {
    var p, t := TimeoutSpan(s).value, WriteTimeout(s, value);
    TimeoutWritten(s, value);
    var head, rest := s[..p.from], s[p.to..];
    assert t[..p.from] == head && t[p.from + |value|..] == rest;
    assert s == head + ValueIn(s, p) + rest;
    WordIsWord(s);
    hide TimeoutSpan;
  }

  lemma WordIsWord(s: string)
    requires TimeoutSpan(s).Some?
    ensures IsWord(ValueIn(s, TimeoutSpan(s).value)) && DefaultSpan(s).None?
  {
    OneWord(s);
  }

  // -------------------------------------------------------- what the lines must be

  /** Only the entry's name is quoted. */
  predicate OnlyNameQuoted(s: string)
    requires MenuSpan(s).Some?
  {
    forall k :: 0 <= k < |s| && s[k] == '\'' ==> k == MenuSpan(s).value.from - 1 || k == MenuSpan(s).value.to
  }

  /** The argument segment stands behind the name and the loader's word. */
  predicate ArgsBehind(s: string)
    requires MenuSpan(s).Some?
  {
    Segment(s).Some? ==>
      MenuSpan(s).value.end <= Segment(s).value.0 <= |s| && Contains(s[..Segment(s).value.0], LINUX)
  }

  /** A line that names a kernel to load is a menu entry, and says so in the order such lines do. */
  predicate LineOk(s: string) { Contains(s, LINUX) ==> MenuSpan(s).Some? && OnlyNameQuoted(s) && ArgsBehind(s) }

  predicate TextOk(ls: Lines) { forall i :: 0 <= i < |ls| ==> LineOk(ls[i]) }

  lemma PartContains(a: string, b: string, c: string, p: string)
    requires Contains(b, p)
    ensures Contains(a + b + c, p)
  {
    var i :| 0 <= i <= |b| && At(b, p, i);
    assert (a + b + c)[|a| + i..|a| + i + |p|] == b[i..i + |p|];
    assert At(a + b + c, p, |a| + i);
  }

  lemma StaysOnOneSide(a: string, c: char, b: string, p: string, i: nat)
    requires c !in p && p != "" && i <= |a| + 1 + |b| && At(a + [c] + b, p, i)
    ensures Contains(a, p) || Contains(b, p)
  {
    var s := a + [c] + b;
    assert s[i..i + |p|] == p;
    if i <= |a| {
      assert forall k :: 0 <= k < |p| ==> s[i..i + |p|][k] == p[k] != c;
      assert s[|a|] == c && forall k :: i <= k < i + |p| ==> s[k] == s[i..i + |p|][k - i];
      assert a[i..i + |p|] == s[i..i + |p|];
      assert At(a, p, i);
    } else {
      var j := i - |a| - 1;
      assert b[j..j + |p|] == s[i..i + |p|];
      assert At(b, p, j);
    }
  }

  /** What does not hold a character cannot reach across it. */
  lemma NotAcross(a: string, c: char, b: string, p: string)
    requires c !in p && p != ""
    ensures Contains(a + [c] + b, p) <==> Contains(a, p) || Contains(b, p)
  {
    var s := a + [c] + b;
    if i :| 0 <= i <= |s| && At(s, p, i) { StaysOnOneSide(a, c, b, p, i); }
    assert s == "" + a + ([c] + b) && s == (a + [c]) + b + "";
    hide Contains;
    if Contains(a, p) { PartContains("", a, [c] + b, p); }
    if Contains(b, p) { PartContains(a + [c], b, "", p); }
  }

  lemma NotInHead()
    ensures !Contains("set default=", LINUX)
  {
    var s := "set default=";
    forall i | 0 <= i <= |s| ensures !At(s, LINUX, i) {
      if i + |LINUX| <= |s| {
        assert s[i..i + |LINUX|][0] == s[i] != 'l';
      }
    }
  }

  /** A line of the default or the timeout names no kernel. */
  lemma SetNamesNoKernel(s: string)
    requires LineOk(s) && AfterWord(s, "set").Some?
    ensures !Contains(s, LINUX)
  {
    OneWord(s);
  }

  lemma DefaultLineOk(s: string, name: string)
    requires LineOk(s) && DefaultSpan(s).Some? && '\'' !in name && !Contains(name, LINUX)
    ensures LineOk(WriteDefault(s, name)) && !Contains(WriteDefault(s, name), LINUX)
  {
    SetNamesNoKernel(s);
    var p := DefaultSpan(s).value;
    var rest := s[p.end..];
    assert s == s[..p.end] + rest + "";
    if Contains(rest, LINUX) { PartContains(s[..p.end], rest, "", LINUX); }
    NotInHead();
    NotAcross(name, '\'', rest, LINUX);
    NotAcross("set default=", '\'', name + ['\''] + rest, LINUX);
    assert WriteDefault(s, name) == "set default=" + ['\''] + (name + ['\''] + rest);
  }

  lemma TimeoutLineOk(s: string, value: string)
    requires LineOk(s) && TimeoutSpan(s).Some? && IsWord(value) && !Contains(value, LINUX)
    ensures LineOk(WriteTimeout(s, value)) && !Contains(WriteTimeout(s, value), LINUX)
  {
    SetNamesNoKernel(s);
    KeyEndsInEquals(s);
    var p := TimeoutSpan(s).value;
    var h, v, rest := s[..p.from - 1], s[p.from..p.to], s[p.to..];
    assert rest != "" ==> IsBlank(rest[0]);
    assert s == h + ['='] + v + rest;
    assert WriteTimeout(s, value) == h + ['='] + value + rest;
    hide TimeoutSpan;
    hide LineOk;
    ThreePieces(h, v, rest);
    ThreePieces(h, value, rest);
    NoKernelOk(WriteTimeout(s, value));
  }

  lemma NoKernelOk(s: string)
    requires !Contains(s, LINUX)
    ensures LineOk(s)
  {
  }

  /** No loader's word reaches across an equals sign or a blank. */
  lemma ThreePieces(h: string, v: string, rest: string)
    requires rest == "" || IsBlank(rest[0])
    ensures Contains(h + ['='] + v + rest, LINUX) <==> Contains(h, LINUX) || Contains(v, LINUX) || Contains(rest, LINUX)
  {
    hide Contains;
    assert h + ['='] + v + rest == h + ['='] + (v + rest);
    NotAcross(h, '=', v + rest, LINUX);
    if rest == "" {
      assert v + rest == v;
      NothingInNothing();
    } else {
      var r := rest[1..];
      assert v + rest == v + [rest[0]] + r && rest == "" + [rest[0]] + r;
      NotAcross(v, rest[0], r, LINUX);
      NotAcross("", rest[0], r, LINUX);
      NothingInNothing();
    }
  }

  lemma NothingInNothing()
    ensures !Contains("", LINUX)
  {
  }

  lemma KeyEndsInEquals(s: string)
    requires TimeoutSpan(s).Some?
    ensures TimeoutSpan(s).value.from > 0 && s[TimeoutSpan(s).value.from - 1] == '='
  {
    var j, k := AfterWord(s, "set").value, TimeoutSpan(s).value.from;
    assert s[k - 1] == s[j..k][7] == "timeout="[7];
  }

  /** Text in single quotes, in a line with quotes at two places only. */
  lemma QuotedAt(s: string, name: string, i: nat, from: nat, to: nat)
    requires '\'' !in name && i <= |s| && At(s, "'" + name + "'", i) && 0 < from <= to < |s|
    requires forall k :: 0 <= k < |s| && s[k] == '\'' ==> k == from - 1 || k == to
    ensures name == s[from..to]
  {
    var q, n := "'" + name + "'", |name| + 2;
    assert s[i..i + n] == q;
    assert s[i] == s[i..i + n][0] == '\'';
    assert s[i + n - 1] == s[i..i + n][n - 1] == '\'';
    assert i == from - 1 && i + n - 1 == to;
    assert q[1..][..|name|] == name;
    assert s[i..i + n][1..][..|name|] == s[from..to];
  }

  lemma QuotedThere(s: string, from: nat, to: nat)
    requires 0 < from <= to < |s| && s[from - 1] == '\'' && s[to] == '\''
    ensures Contains(s, "'" + s[from..to] + "'")
  {
    assert s[from - 1..to + 1] == "'" + s[from..to] + "'";
    assert At(s, "'" + s[from..to] + "'", from - 1);
  }

  /** In such lines the writer's search finds a name exactly if it is the entry's. */
  lemma QuotedIsName(s: string, name: string)
    requires MenuSpan(s).Some? && OnlyNameQuoted(s) && '\'' !in name
    ensures Contains(s, "'" + name + "'") <==> name == ValueIn(s, MenuSpan(s).value)
  {
    var p := MenuSpan(s).value;
    hide MenuSpan;
    QuotedThere(s, p.from, p.to);
    if i :| 0 <= i <= |s| && At(s, "'" + name + "'", i) {
      hide At;
      QuotedAt(s, name, i, p.from, p.to);
    }
  }

  lemma KernelAgrees(s: string, name: string)
    requires LineOk(s) && '\'' !in name
    ensures KernelText(s, name) <==> IsKernel(Read(s), name)
  {
    OneWord(s);
    if Contains(s, LINUX) { QuotedIsName(s, name); }
    hide AfterWord;
  }

  lemma {:induction false} EntryAgrees(ls: Lines, name: string)
    requires TextOk(ls) && '\'' !in name
    ensures TextEntry(ls, name) == EntryLine(ReadAll(ls), name)
  {
    forall i | 0 <= i < |ls| ensures KernelText(ls[i], name) <==> IsKernel(ReadAll(ls)[i], name) {
      KernelAgrees(ls[i], name);
    }
    hide KernelText;
    hide IsKernel;
    var k, l := TextEntry(ls, name), EntryLine(ReadAll(ls), name);
    assert k < |ls| ==> IsKernel(ReadAll(ls)[k], name);
    assert l < |ls| ==> KernelText(ls[l], name);
  }

  // ------------------------------------------------------------- arming a line

  lemma SamePrefix(s: string, t: string, n: nat, j: nat)
    requires j <= n <= |s| && n <= |t| && s[..n] == t[..n]
    ensures s[..j] == t[..j] && forall k :: 0 <= k < n ==> s[k] == t[k]
  {
    assert forall k :: 0 <= k < n ==> s[..n][k] == s[k] && t[..n][k] == t[k];
  }

  lemma MenuKept(s: string, t: string)
    requires MenuSpan(s).Some? && MenuSpan(s).value.end <= |t|
        && s[..MenuSpan(s).value.end] == t[..MenuSpan(s).value.end]
    ensures MenuSpan(t) == MenuSpan(s)
  {
    var p := MenuSpan(s).value;
    var j := AfterWord(s, "menuentry").value;
    hide Blanks;
    hide AfterWord;
    SamePrefix(s, t, p.end, j);
    SameAfterWord(s, t, "menuentry", j);
    NextQuoteIs(t, p.from, p.to, '\'');
  }

  /** A line with another text, free of quotes, in the place of its argument segment. */
  ghost predicate Spliced(s: string, t: string, a: nat, b: nat, mid: string) {
    && a <= b <= |s| && t == s[..a] + mid + s[b..] && '\'' !in mid
    && Segment(s) == Some((a, b)) && Segment(t) == Some((a, a + |mid|))
  }

  lemma ArmedIsSpliced(s: string, args: string)
    requires OneSegment(s) && NoMarker(Spaced(args)) && '\'' !in args
    ensures Segment(s).Some? && Spliced(s, WithArgs(s, args), Segment(s).value.0, Segment(s).value.1, Spaced(args))
  {
    hide MarkerAt;
    hide MarkerLength;
    hide FindOpening;
    hide FindMarker;
    hide NoMarker;
    hide WithArgs;
    hide ArgsOf;
    hide Segment;
    assert Segment(s).Some?;
    hide OneSegment;
    WithArgsReads(s, args);
    SegmentInside(s);
    UnquotedSpaced(args);
    hide Spaced;
  }

  lemma UnquotedSpaced(args: string)
    requires '\'' !in args
    ensures '\'' !in Spaced(args)
  {
  }

  lemma SegmentInside(s: string)
    requires Segment(s).Some?
    ensures Segment(s).value.0 <= Segment(s).value.1 <= |s|
  {
    hide FindOpening;
    hide FindMarker;
  }

  lemma SplicedMenu(s: string, t: string, a: nat, b: nat, mid: string)
    requires LineOk(s) && Contains(s, LINUX) && Spliced(s, t, a, b, mid)
    ensures MenuSpan(t) == MenuSpan(s) && ValueIn(t, MenuSpan(s).value) == ValueIn(s, MenuSpan(s).value)
  {
    hide Segment;
    var p := MenuSpan(s).value;
    assert p.end <= a;
    hide MenuSpan;
    hide LineOk;
    hide Contains;
    assert t[..a] == s[..a];
    assert t[..p.end] == t[..a][..p.end] == s[..p.end];
    MenuKept(s, t);
    assert t[p.from..p.to] == t[..a][p.from..p.to] == s[..a][p.from..p.to];
  }

  lemma SplicedQuotes(s: string, t: string, a: nat, b: nat, mid: string)
    requires MenuSpan(s).Some? && OnlyNameQuoted(s) && Spliced(s, t, a, b, mid) && MenuSpan(t) == MenuSpan(s)
    requires MenuSpan(s).value.end <= a
    ensures OnlyNameQuoted(t)
  {
    hide Segment;
    var p := MenuSpan(s).value;
    hide MenuSpan;
    var rest := s[b..];
    forall k | 0 <= k < |t| ensures t[k] == '\'' ==> k == p.from - 1 || k == p.to {
      if k < a {
        assert t[k] == s[k];
      } else if k < a + |mid| {
        assert t[k] == mid[k - a];
      } else {
        assert t[k] == rest[k - a - |mid|] == s[b + (k - a - |mid|)];
      }
    }
  }

  lemma SplicedArgs(s: string, t: string, a: nat, b: nat, mid: string)
    requires MenuSpan(s).Some? && ArgsBehind(s) && Spliced(s, t, a, b, mid) && MenuSpan(t) == MenuSpan(s)
    ensures ArgsBehind(t) && Contains(t, LINUX)
  {
    hide Segment;
    hide MenuSpan;
    var head, rest := s[..a], s[b..];
    assert t[..a] == head && "" + head + (mid + rest) == t;
    PartContains("", head, mid + rest, LINUX);
    hide Contains;
  }

  lemma ArmedParts(s: string, args: string)
    requires LineOk(s) && Contains(s, LINUX) && OneSegment(s) && NoMarker(Spaced(args)) && '\'' !in args
    ensures var t := WithArgs(s, args);
            && MenuSpan(t) == MenuSpan(s) && OnlyNameQuoted(t) && ArgsBehind(t) && Contains(t, LINUX)
            && ValueIn(t, MenuSpan(s).value) == ValueIn(s, MenuSpan(s).value)
  {
    ArmedIsSpliced(s, args);
    hide OneSegment;
    hide NoMarker;
    hide WithArgs;
    hide Segment;
    hide MenuSpan;
    hide OnlyNameQuoted;
    hide Contains;
    var t, mid := WithArgs(s, args), Spaced(args);
    hide Spaced;
    var (a, b) := Segment(s).value;
    SplicedMenu(s, t, a, b, mid);
    hide Spliced;
    SplicedQuotes(s, t, a, b, mid);
    SplicedArgs(s, t, a, b, mid);
  }

  /** An armed line is the same entry with another text, and again as such lines must be. */
  lemma ArmedReads(s: string, args: string)
    requires LineOk(s) && Contains(s, LINUX) && OneSegment(s) && NoMarker(Spaced(args)) && '\'' !in args
    ensures var t := WithArgs(s, args);
            LineOk(t) && Read(s).Entry? && Read(s).text == s && Read(t) == Read(s).(text := t)
  {
    ArmedParts(s, args);
    var t := WithArgs(s, args);
    var p := MenuSpan(s).value;
    OneWord(s);
    OneWord(t);
    MenuWord(s);
    MenuWord(t);
    hide WithArgs;
    hide OneSegment;
    hide NoMarker;
    hide MenuSpan;
    hide AfterWord;
  }

  lemma MenuWord(s: string)
    ensures MenuSpan(s).Some? ==> AfterWord(s, "menuentry").Some?
  {
  }

  lemma {:induction false} TrimKeepsFree(s: string, c: char)
    requires c !in s
    ensures c !in TrimLeft(s) && c !in TrimRight(s)
    decreases |s|
  {
    if s != [] {
      TrimKeepsFree(s[1..], c);
      TrimKeepsFree(s[..|s| - 1], c);
    }
  }

  /** The arguments a line has are not quoted. */
  lemma OwnArgsUnquoted(s: string)
    requires LineOk(s) && Contains(s, LINUX) && Segment(s).Some?
    ensures '\'' !in ArgsOf(s)
  {
    var (a, b) := Segment(s).value;
    var x := s[a..b];
    forall k | 0 <= k < |x| ensures x[k] != '\'' {
      assert x[k] == s[a + k];
    }
    TrimKeepsFree(x, '\'');
    TrimKeepsFree(TrimLeft(x), '\'');
    hide Segment;
  }

  // ------------------------------------------------ the edits of the text are those of the file

  /** A name a default may be pointed at. */
  predicate NameOk(name: string) { '\'' !in name && !Contains(name, LINUX) }

  lemma PointRefines(ls: Lines, name: string)
    requires TextOk(ls) && NameOk(name)
    ensures ReadAll(TextPoint(ls, name)) == Repointed(ReadAll(ls), name) && TextOk(TextPoint(ls, name))
  {
    var r := TextPoint(ls, name);
    forall i | 0 <= i < |ls|
      ensures LineOk(r[i]) && Read(r[i]) == if Read(ls[i]).Default? then Default(name) else Read(ls[i])
    {
      if DefaultSpan(ls[i]).Some? {
        DefaultWritten(ls[i], name);
        DefaultLineOk(ls[i], name);
      }
      hide DefaultSpan;
    }
  }

  lemma TimeRefines(ls: Lines, value: string)
    requires TextOk(ls) && IsWord(value) && !Contains(value, LINUX)
    ensures ReadAll(TextTime(ls, value)) == Retimed(ReadAll(ls), value) && TextOk(TextTime(ls, value))
  {
    var r := TextTime(ls, value);
    forall i | 0 <= i < |ls|
      ensures LineOk(r[i]) && Read(r[i]) == if Read(ls[i]).Timeout? then Timeout(value) else Read(ls[i])
    {
      if TimeoutSpan(ls[i]).Some? {
        TimeoutWritten(ls[i], value);
        TimeoutLineOk(ls[i], value);
        WordIsWord(ls[i]);
        WordIsWord(r[i]);
      }
      hide TimeoutSpan;
      hide DefaultSpan;
    }
  }

  lemma ArmRefines(ls: Lines, name: string, args: string)
    requires TextOk(ls) && '\'' !in name && Restorable(ReadAll(ls), name) && NoMarker(Spaced(args)) && '\'' !in args
    ensures ReadAll(TextArm(ls, name, args)) == Rearmed(ReadAll(ls), name, args) && TextOk(TextArm(ls, name, args))
    ensures var k := TextEntry(ls, name);
            k < |ls| && k == EntryLine(ReadAll(ls), name) && TextArm(ls, name, args) == ls[k := WithArgs(ls[k], args)]
                && Read(ls[k]).text == ls[k]
  {
    EntryAgrees(ls, name);
    var k, c := TextEntry(ls, name), ReadAll(ls);
    assert IsKernel(c[k], name);
    KernelTextIs(ls[k]);
    ArmedReads(ls[k], args);
    hide WithArgs;
    hide OneSegment;
    hide NoMarker;
    hide Read;
  }

  lemma KernelTextIs(s: string)
    requires Read(s).Entry? && Read(s).kernel
    ensures Contains(s, LINUX) && Read(s).text == s
  {
  }

  // --------------------------------------------------------- flip and restore on the text

  function TextPointed(ls: Lines, t: Token): Lines { if t.target != t.prevDefault then TextPoint(ls, t.target) else ls }

  function TextArmed(ls: Lines, t: Token, args: string): Lines { TextArm(TextPointed(ls, t), t.target, args) }

  function TextReady(ls: Lines, t: Token, args: string): Lines { TextTime(TextArmed(ls, t, args), "0") }

  function TextUndoDefault(ls: Lines, t: Token): Lines {
    if t.target != t.prevDefault && IsMenu(ReadAll(ls), t.prevDefault) && HasDefault(ReadAll(ls))
    then TextPoint(ls, t.prevDefault) else ls
  }

  function TextUndoTimeout(ls: Lines, t: Token): Lines {
    if t.prevTimeout != "" && t.prevTimeout != "0" then TextTime(ls, t.prevTimeout) else ls
  }

  function TextUndone(ls: Lines, t: Token): Lines {
    TextUndoTimeout(TextArm(TextUndoDefault(ls, t), t.target, t.prevArgs), t)
  }

  /**
   What a token must be for its values to be written back into a text: no quotes, no loader's word, a
   timeout that is a word.
   */
  predicate TokenOk(t: Token) {
    && NameOk(t.target) && NameOk(t.prevDefault) && '\'' !in t.prevArgs && NoMarker(Spaced(t.prevArgs))
    && (t.prevTimeout != "" ==> IsWord(t.prevTimeout) && !Contains(t.prevTimeout, LINUX))
  }

  lemma UndoRefines(ls: Lines, t: Token)
    requires TextOk(ls) && TokenOk(t) && Restorable(UndoDefault(ReadAll(ls), t), t.target)
    ensures ReadAll(TextUndone(ls, t)) == Undone(ReadAll(ls), t) && TextOk(TextUndone(ls, t))
  {
    PointRefines(ls, t.prevDefault);
    hide TextOk;
    hide OneSegment;
    hide NoMarker;
    hide Segment;
    hide IsMenu;
    hide HasDefault;
    hide Contains;
    var one := TextUndoDefault(ls, t);
    ArmRefines(one, t.target, t.prevArgs);
    var two := TextArm(one, t.target, t.prevArgs);
    if t.prevTimeout != "" && t.prevTimeout != "0" { TimeRefines(two, t.prevTimeout); }
  }

  lemma ZeroIsWord()
    ensures IsWord("0") && !Contains("0", LINUX)
  {
  }

  /** The stages of a flip, on the text and on the file. */
  lemma StagesRefine(ls: Lines, t: Token, args: string)
    requires TextOk(ls) && TokenOk(t) && WellFormed(ReadAll(ls), t, args) && '\'' !in args
    ensures var c := ReadAll(ls);
            && Armable(PointedAt(c, t), t.target)
            && ReadAll(TextPointed(ls, t)) == PointedAt(c, t) && TextOk(TextPointed(ls, t))
            && ReadAll(TextArmed(ls, t, args)) == Armed(c, t, args) && TextOk(TextArmed(ls, t, args))
            && ReadAll(TextReady(ls, t, args)) == Ready(c, t, args) && TextOk(TextReady(ls, t, args))
  {
    PointedIsSafe(ReadAll(ls), t, args);
    PointRefines(ls, t.target);
    hide TextOk;
    hide OneSegment;
    hide Segment;
    hide NoMarker;
    hide Contains;
    var one := TextPointed(ls, t);
    ArmRefines(one, t.target, args);
    ZeroIsWord();
    TimeRefines(TextArm(one, t.target, args), "0");
  }

  lemma StagesRestorable(c: Cfg, t: Token, args: string)
    requires WellFormed(c, t, args)
    ensures Armable(PointedAt(c, t), t.target)
    ensures Restorable(UndoDefault(PointedAt(c, t), t), t.target)
    ensures Restorable(UndoDefault(Armed(c, t, args), t), t.target)
        && Restorable(UndoDefault(Ready(c, t, args), t), t.target)
    ensures EntryLine(PointedAt(c, t), t.target) == EntryLine(c, t.target)
    ensures EntryLine(UndoDefault(Ready(c, t, args), t), t.target) == EntryLine(c, t.target)
  {
    PointedIsSafe(c, t, args);
    SameMenuReads(c, PointedAt(c, t), t.target);
    UndoPointed(c, t, args);
    Rearm(c, t.target, args, args);
    LastWritingCounts(c[EntryLine(c, t.target)].text, args, args);
    RetimeUndoDefault(Armed(c, t, args), t, "0");
    var d := Rearmed(c, t.target, args);
    SameMenuReads(c, d, t.target);
    SameMenuReads(d, Retimed(d, "0"), t.target);
    hide UndoDefault;
    hide OneSegment;
    hide Segment;
    hide WithArgs;
    hide PointedAt;
  }

  /**
   Flip, then restore, on the text of grub.cfg: after a restore, and after a flip that failed at
   any of its steps, every setting reads as it did before.
   */
  lemma TextFlipRestores(ls: Lines, image: string, args: string)
    requires TextOk(ls) && '\'' !in args
    requires var c := ReadAll(ls);
             var t := TokenFor(c, image);
             WellFormed(c, t, args) && TokenOk(t)
    ensures var c := ReadAll(ls);
            var t := TokenFor(c, image);
            && SameSettings(c, ReadAll(TextUndone(TextPointed(ls, t), t)))
            && SameSettings(c, ReadAll(TextUndone(TextArmed(ls, t, args), t)))
            && SameSettings(c, ReadAll(TextUndone(TextReady(ls, t, args), t)))
  {
    var c := ReadAll(ls);
    var t := TokenFor(c, image);
    StagesRefine(ls, t, args);
    StagesRestorable(c, t, args);
    UndoRefines(TextPointed(ls, t), t);
    UndoRefines(TextArmed(ls, t, args), t);
    UndoRefines(TextReady(ls, t, args), t);
    hide TextOk;
    hide WellFormed;
    hide SameSettings;
    hide TextUndone;
    hide Undone;
    hide Ready;
    hide Armed;
    hide PointedAt;
    hide Restorable;
    FlipThenRestore(c, image, args, Undone(PointedAt(c, t), t));
    FlipThenRestore(c, image, args, Undone(Armed(c, t, args), t));
    FlipThenRestore(c, image, args, Undone(Ready(c, t, args), t));
  }

  /** The timeout there was is that of any line that has one. */
  lemma TheTimeout(ls: Lines, i: nat)
    requires OneTimeoutAtMost(ReadAll(ls)) && i < |ls| && TimeoutSpan(ls[i]).Some?
    ensures CurrentTimeout(ReadAll(ls)) == ValueIn(ls[i], TimeoutSpan(ls[i]).value) != "" && Read(ls[i]).Timeout?
  {
    WordIsWord(ls[i]);
    hide TimeoutSpan;
    hide DefaultSpan;
    hide MenuSpan;
    assert ReadAll(ls)[i].Timeout?;
    TimeoutAt(ReadAll(ls), i);
  }

  /** Setting a line's timeout to 0 and back gives the line. */
  lemma ThereAndBack(ls: Lines, i: nat)
    requires OneTimeoutAtMost(ReadAll(ls)) && i < |ls| && TimeoutSpan(ls[i]).Some?
    ensures var v, t := CurrentTimeout(ReadAll(ls)), WriteTimeout(ls[i], "0");
            TimeoutSpan(t).Some? && DefaultSpan(t).None? && (if v == "0" then t else WriteTimeout(t, v)) == ls[i]
  {
    hide DefaultSpan;
    hide CurrentTimeout;
    hide IsWord;
    TheTimeout(ls, i);
    hide OneTimeoutAtMost;
    SetAndBack(ls[i]);
  }

  lemma SetAndBack(s: string)
    requires TimeoutSpan(s).Some?
    ensures var v, t := ValueIn(s, TimeoutSpan(s).value), WriteTimeout(s, "0");
            TimeoutSpan(t).Some? && DefaultSpan(t).None? && WriteTimeout(t, v) == s && (v == "0" ==> t == s)
  {
    ZeroIsWord();
    TimeoutBack(s, "0");
    WordIsWord(WriteTimeout(s, "0"));
    hide TimeoutSpan;
    hide DefaultSpan;
    var p := TimeoutSpan(s).value;
    assert s == s[..p.from] + ValueIn(s, p) + s[p.to..];
  }

  lemma ReadyElsewhere(ls: Lines, t: Token, args: string, i: nat)
    requires TextOk(ls) && TokenOk(t) && WellFormed(ReadAll(ls), t, args) && '\'' !in args && i < |ls|
    requires DefaultSpan(ls[i]).None? && i != TextEntry(ls, t.target)
    ensures |TextReady(ls, t, args)| == |ls|
    ensures TextReady(ls, t, args)[i] == if TimeoutSpan(ls[i]).Some? then WriteTimeout(ls[i], "0") else ls[i]
  {
    StagesRefine(ls, t, args);
    StagesRestorable(ReadAll(ls), t, args);
    EntryAgrees(ls, t.target);
    EntryAgrees(TextPointed(ls, t), t.target);
    hide TextOk;
    hide WellFormed;
    hide DefaultSpan;
    hide TimeoutSpan;
    hide WithArgs;
    hide Segment;
    assert TextPointed(ls, t)[i] == ls[i];
  }

  lemma UndoneElsewhere(r: Lines, t: Token, k: nat, i: nat)
    requires TextOk(r) && TokenOk(t) && i < |r| && DefaultSpan(r[i]).None?
    requires EntryLine(UndoDefault(ReadAll(r), t), t.target) == k != i
    ensures |TextUndone(r, t)| == |r|
    ensures TextUndone(r, t)[i] == if TimeoutSpan(r[i]).Some? && t.prevTimeout != "" && t.prevTimeout != "0"
                                   then WriteTimeout(r[i], t.prevTimeout) else r[i]
  {
    PointRefines(r, t.prevDefault);
    var one := TextUndoDefault(r, t);
    EntryAgrees(one, t.target);
    assert one[i] == r[i];
    hide TextOk;
    hide DefaultSpan;
    hide TimeoutSpan;
    hide WithArgs;
    hide Segment;
    hide IsMenu;
    hide HasDefault;
  }

  /** And no line but the default's and the target's is another text than before. */
  lemma OtherLinesAsBefore(ls: Lines, image: string, args: string, i: nat)
    requires TextOk(ls) && '\'' !in args && i < |ls|
    requires var c := ReadAll(ls);
             var t := TokenFor(c, image);
             WellFormed(c, t, args) && TokenOk(t)
    requires DefaultSpan(ls[i]).None? && i != TextEntry(ls, TokenFor(ReadAll(ls), image).target)
    ensures var t := TokenFor(ReadAll(ls), image);
            var d := TextUndone(TextReady(ls, t, args), t);
            |d| == |ls| && d[i] == ls[i]
  {
    var c := ReadAll(ls);
    var t := TokenFor(c, image);
    StagesRefine(ls, t, args);
    StagesRestorable(c, t, args);
    var r := TextReady(ls, t, args);
    ReadyElsewhere(ls, t, args, i);
    EntryAgrees(ls, t.target);
    if TimeoutSpan(ls[i]).Some? {
      ThereAndBack(ls, i);
      TheTimeout(ls, i);
    }
    hide TextReady;
    hide TextUndone;
    hide TimeoutSpan;
    hide DefaultSpan;
    UndoneElsewhere(r, t, EntryLine(c, t.target), i);
  }
}
