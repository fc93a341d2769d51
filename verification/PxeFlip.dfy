/** Flipping the boot default for one deploy under the shared lock, and restoring what was there. */
module PxeFlip {
  import opened Basics
  import opened Decimal
  import opened Pxe

  /**
   A line of grub.cfg as its readers take it: the default's and the timeout's value, a menu entry
   with its text (`kernel` if that names the kernel to load), or anything else.
   */
  datatype Line = Other(text: string) | Default(value: string) | Timeout(value: string) | Entry(name: string,
      text: string, kernel: bool)

  type Cfg = seq<Line>

  // ------------------------------------------------------------------ the readers

  function CurrentDefault(c: Cfg): string {
    if c == [] then "" else if c[0].Default? then c[0].value else CurrentDefault(c[1..])
  }

  function CurrentTimeout(c: Cfg): string {
    if c == [] then "" else if c[0].Timeout? then c[0].value else CurrentTimeout(c[1..])
  }

  predicate HasDefault(c: Cfg) { exists i :: 0 <= i < |c| && c[i].Default? }

  predicate HasTimeout(c: Cfg) { exists i :: 0 <= i < |c| && c[i].Timeout? }

  predicate IsMenu(c: Cfg, name: string) { exists i :: 0 <= i < |c| && c[i].Entry? && c[i].name == name }

  predicate IsKernel(l: Line, name: string) { l.Entry? && l.name == name && l.kernel }

  /** The first kernel line of an entry; the length of the file when there is none. */
  function EntryLine(c: Cfg, name: string): (k: nat)
    ensures k <= |c|
    ensures k < |c| ==> IsKernel(c[k], name)
    ensures forall i :: 0 <= i < k ==> !IsKernel(c[i], name)
  {
    if c == [] then 0 else if IsKernel(c[0], name) then 0 else 1 + EntryLine(c[1..], name)
  }

  function EntryArgs(c: Cfg, name: string): Option<string> {
    var k := EntryLine(c, name);
    if k == |c| then None else Some(ArgsOf(c[k].text))
  }

  // ------------------------------------------------------------------ the writers

  function Repointed(c: Cfg, name: string): (d: Cfg)
    ensures |d| == |c| && forall i :: 0 <= i < |c| ==> d[i] == if c[i].Default? then Default(name) else c[i]
  {
    seq(|c|, i requires 0 <= i < |c| => if c[i].Default? then Default(name) else c[i])
  }

  function Retimed(c: Cfg, value: string): (d: Cfg)
    ensures |d| == |c| && forall i :: 0 <= i < |c| ==> d[i] == if c[i].Timeout? then Timeout(value) else c[i]
  {
    seq(|c|, i requires 0 <= i < |c| => if c[i].Timeout? then Timeout(value) else c[i])
  }

  predicate Armable(c: Cfg, name: string) {
    EntryLine(c, name) < |c| && Segment(c[EntryLine(c, name)].text).Some?
  }

  function Rearmed(c: Cfg, name: string, args: string): Cfg
    requires Armable(c, name)
  {
    var k := EntryLine(c, name);
    c[k := c[k].(text := WithArgs(c[k].text, args))]
  }

  /** What a restore needs to remember. */
  datatype Token = Token(target: string, prevDefault: string, prevArgs: string, prevTimeout: string)

  function TokenFor(c: Cfg, image: string): Token {
    var target := if image == "" then CurrentDefault(c) else image;
    var args := EntryArgs(c, target);
    Token(target, CurrentDefault(c), if args.Some? then args.value else "", CurrentTimeout(c))
  }

  function UndoDefault(c: Cfg, t: Token): Cfg {
    if t.target != t.prevDefault && IsMenu(c, t.prevDefault) && HasDefault(c) then Repointed(c, t.prevDefault) else c
  }

  function UndoArgs(c: Cfg, t: Token): Cfg { if Armable(c, t.target) then Rearmed(c, t.target, t.prevArgs) else c }

  function UndoTimeout(c: Cfg, t: Token): Cfg {
    if t.prevTimeout != "" && t.prevTimeout != "0" then Retimed(c, t.prevTimeout) else c
  }

  /** Each part put back if the file still lets it; a part that cannot be is left. */
  function Undone(c: Cfg, t: Token): Cfg { UndoTimeout(UndoArgs(UndoDefault(c, t), t), t) }

  function PointedAt(c: Cfg, t: Token): Cfg { if t.target != t.prevDefault then Repointed(c, t.target) else c }

  function Armed(c: Cfg, t: Token, args: string): Cfg
    requires Armable(PointedAt(c, t), t.target)
  {
    Rearmed(PointedAt(c, t), t.target, args)
  }

  function Ready(c: Cfg, t: Token, args: string): Cfg
    requires Armable(PointedAt(c, t), t.target)
  {
    Retimed(Armed(c, t, args), "0")
  }

  // ------------------------------------------------------------------ the directory

  /** The PXE directory: the menu, the lock file, and the write (if any) that is going to fail. */
  class Root {
    var cfg: Cfg
    var locked: bool
    var failing: Option<nat>

    constructor (cfg: Cfg, locked: bool, failing: Option<nat>)
      ensures this.cfg == cfg && this.locked == locked && this.failing == failing
    {
      this.cfg, this.locked, this.failing := cfg, locked, failing;
    }

    method Write(c: Cfg) returns (ok: bool)
      modifies this`cfg, this`failing
      ensures ok <==> old(failing) != Some(0)
      ensures cfg == if ok then c else old(cfg)
      ensures !ok ==> failing == None
      ensures old(failing) == None ==> failing == None
    {
      if failing == Some(0) {
        failing := None;
        return false;
      }
      if failing.Some? { failing := Some(failing.value - 1); }
      cfg := c;
      return true;
    }

    method SetDefault(name: string) returns (ok: bool)
      modifies this`cfg, this`failing
      ensures ok <==> old(failing) != Some(0) && IsMenu(old(cfg), name) && HasDefault(old(cfg))
      ensures cfg == if ok then Repointed(old(cfg), name) else old(cfg)
      ensures old(failing) == None ==> failing == None
      ensures !ok && IsMenu(old(cfg), name) && HasDefault(old(cfg)) ==> failing == None
    {
      var found := false;
      for i := 0 to |cfg|
        invariant found <==> exists j :: 0 <= j < i && cfg[j].Entry? && cfg[j].name == name
      {
        if cfg[i].Entry? && cfg[i].name == name { found := true; }
      }
      if !found || !HasDefault(cfg) { return false; }
      ok := Write(Repointed(cfg, name));
    }

    method SetTimeout(value: string) returns (ok: bool)
      modifies this`cfg, this`failing
      ensures ok <==> !HasTimeout(old(cfg)) || old(failing) != Some(0)
      ensures cfg == if ok then Retimed(old(cfg), value) else old(cfg)
      ensures old(failing) == None || !ok ==> failing == None
    {
      if !HasTimeout(cfg) {
        assert Retimed(cfg, value) == cfg;
        return true;
      }
      ok := Write(Retimed(cfg, value));
    }

    method SetEntryArgs(name: string, args: string) returns (ok: bool)
      modifies this`cfg, this`failing
      ensures ok <==> old(failing) != Some(0) && Armable(old(cfg), name)
      ensures cfg == if ok then Rearmed(old(cfg), name, args) else old(cfg)
      ensures old(failing) == None ==> failing == None
      ensures !ok && Armable(old(cfg), name) ==> failing == None
    {
      var k := EntryLine(cfg, name);
      if k == |cfg| { return false; }
      if Segment(cfg[k].text).None? { return false; }
      ok := Write(cfg[k := cfg[k].(text := WithArgs(cfg[k].text, args))]);
    }

    method Undo(t: Token)
      requires failing == None
      modifies this`cfg, this`failing
      ensures cfg == Undone(old(cfg), t) && failing == None
    {
      if t.target != t.prevDefault {
        var _ := SetDefault(t.prevDefault);
      }
      var _ := SetEntryArgs(t.target, t.prevArgs);
      if t.prevTimeout != "" && t.prevTimeout != "0" {
        var _ := SetTimeout(t.prevTimeout);
      }
    }

    /**
     Arms `image` (or whatever is the default) with the given arguments under the lock. A failure
     half-way is undone before the lock is given back.
     */
    method Flip(image: string, args: string) returns (restore: Option<Restore>)
      modifies this
      ensures var t := TokenFor(old(cfg), image);
              restore.Some? ==>
                && !old(locked) && locked && Armable(PointedAt(old(cfg), t), t.target)
                    && cfg == Ready(old(cfg), t, args)
                && fresh(restore.value) && !restore.value.once && restore.value.token == t
      ensures restore.None? ==> locked == old(locked) && FlipFailed(old(cfg), cfg, TokenFor(old(cfg), image), args)
      ensures restore.None? && old(locked) ==> cfg == old(cfg)
    {
      var t := TokenFor(cfg, image);
      if EntryLine(cfg, t.target) == |cfg| || locked { return None; }
      locked := true;
      if t.target != t.prevDefault {
        var ok := SetDefault(t.target);
        if !ok {
          locked := false;
          return None;
        }
      }
      var armed := SetEntryArgs(t.target, args);
      if !armed {
        failing := None; // the writes that undo are taken to succeed
        Undo(t);
        locked := false;
        return None;
      }
      var timed := SetTimeout("0");
      if !timed {
        Undo(t);
        locked := false;
        return None;
      }
      var r := new Restore(t);
      restore := Some(r);
    }
  }

  /** What a failed flip can leave: nothing done, or the first or the first two steps done and undone. */
  ghost predicate FlipFailed(c: Cfg, d: Cfg, t: Token, args: string) {
    || d == c
    || d == Undone(PointedAt(c, t), t)
    || (Armable(PointedAt(c, t), t.target) && d == Undone(Armed(c, t, args), t))
  }

  /** The restore handed out by a flip; it acts once. */
  class Restore {
    var once: bool
    const token: Token

    constructor (token: Token)
      ensures this.token == token && !once
    {
      this.token, once := token, false;
    }

    method Run(root: Root)
      requires root.failing == None
      modifies this`once, root`cfg, root`failing, root`locked
      ensures once && root.failing == None
      ensures root.cfg == if old(once) then old(root.cfg) else Undone(old(root.cfg), token)
      ensures root.locked == (old(once) && old(root.locked))
    {
      if once { return; }
      once := true;
      root.Undo(token);
      root.locked := false;
    }
  }

  // ---------------------------------------------------------------- restoration

  ghost predicate OneDefault(c: Cfg) {
    HasDefault(c) && forall i, j :: 0 <= i < j < |c| ==> !(c[i].Default? && c[j].Default?)
  }

  ghost predicate OneTimeoutAtMost(c: Cfg) {
    && (forall i, j :: 0 <= i < j < |c| ==> !(c[i].Timeout? && c[j].Timeout?))
    && (forall i :: 0 <= i < |c| && c[i].Timeout? ==> c[i].value != "")
  }

  /** The two files have the same entries in the same places. */
  ghost predicate SameMenu(c: Cfg, d: Cfg) {
    |c| == |d| && forall i :: 0 <= i < |c| ==>
      (c[i].Entry? <==> d[i].Entry?) && (c[i].Entry? ==> c[i].name == d[i].name && c[i].kernel == d[i].kernel)
  }

  lemma SameMenuReads(c: Cfg, d: Cfg, name: string)
    requires SameMenu(c, d)
    ensures EntryLine(c, name) == EntryLine(d, name) && (IsMenu(c, name) <==> IsMenu(d, name))
  {
    assert forall i :: 0 <= i < |c| ==> (IsKernel(c[i], name) <==> IsKernel(d[i], name));
    var k, l := EntryLine(c, name), EntryLine(d, name);
    assert k < |c| ==> IsKernel(d[k], name);
    assert l < |d| ==> IsKernel(c[l], name);
    if i :| 0 <= i < |c| && c[i].Entry? && c[i].name == name { assert d[i].Entry? && d[i].name == name; }
    if i :| 0 <= i < |d| && d[i].Entry? && d[i].name == name { assert c[i].Entry? && c[i].name == name; }
  }

  lemma {:induction false} DefaultAt(c: Cfg, i: nat)
    requires i < |c| && c[i].Default? && forall j :: 0 <= j < |c| && c[j].Default? ==> j == i
    ensures CurrentDefault(c) == c[i].value
    decreases |c|
  {
    if i > 0 {
      assert c[1..][i - 1] == c[i];
      assert forall j :: 0 <= j < |c[1..]| ==> c[1..][j] == c[j + 1];
      DefaultAt(c[1..], i - 1);
    }
  }

  lemma {:induction false} TimeoutAt(c: Cfg, i: nat)
    requires i < |c| && c[i].Timeout? && forall j :: 0 <= j < |c| && c[j].Timeout? ==> j == i
    ensures CurrentTimeout(c) == c[i].value
    decreases |c|
  {
    if i > 0 {
      assert c[1..][i - 1] == c[i];
      assert forall j :: 0 <= j < |c[1..]| ==> c[1..][j] == c[j + 1];
      TimeoutAt(c[1..], i - 1);
    }
  }

  lemma Repoint(c: Cfg, name: string)
    requires OneDefault(c)
    ensures Repointed(Repointed(c, name), CurrentDefault(c)) == c && CurrentDefault(Repointed(c, name)) == name
    ensures OneDefault(Repointed(c, name)) && SameMenu(c, Repointed(c, name))
  {
    var i :| 0 <= i < |c| && c[i].Default?;
    DefaultAt(c, i);
    assert Repointed(c, name)[i].Default?;
    DefaultAt(Repointed(c, name), i);
  }

  lemma Retime(c: Cfg, t: Token)
    requires OneTimeoutAtMost(c) && t.prevTimeout == CurrentTimeout(c)
    ensures UndoTimeout(Retimed(c, "0"), t) == c && UndoTimeout(c, t) == c
  {
    if i :| 0 <= i < |c| && c[i].Timeout? {
      TimeoutAt(c, i);
    }
  }

  /** The target can be armed and its own arguments can be written back. */
  ghost predicate Restorable(c: Cfg, target: string) {
    Armable(c, target) && OneSegment(c[EntryLine(c, target)].text)
  }

  /** The file with the target's argument segment written afresh with the arguments it had. */
  function Tidied(c: Cfg, t: Token): Cfg
    requires Armable(c, t.target)
  {
    Rearmed(c, t.target, t.prevArgs)
  }

  lemma Rearm(c: Cfg, name: string, x: string, y: string)
    requires Restorable(c, name) && NoMarker(Spaced(x))
    ensures var d := Rearmed(c, name, x);
            SameMenu(c, d) && Armable(d, name) && Rearmed(d, name, y) == Rearmed(c, name, y)
  {
    var k := EntryLine(c, name);
    LastWritingCounts(c[k].text, x, y);
    SameMenuReads(c, Rearmed(c, name, x), name);
    hide WithArgs;
    hide Segment;
  }

  /** What a flip and its restore rest on: one default, naming an entry, and a target that can be armed. */
  ghost predicate WellFormed(c: Cfg, t: Token, args: string) {
    && OneDefault(c) && OneTimeoutAtMost(c)
    && t.prevDefault == CurrentDefault(c) && t.prevTimeout == CurrentTimeout(c)
    && IsMenu(c, t.prevDefault) && Restorable(c, t.target) && NoMarker(Spaced(args))
  }

  lemma PointedIsSafe(c: Cfg, t: Token, args: string)
    requires WellFormed(c, t, args)
    ensures Restorable(PointedAt(c, t), t.target) && SameMenu(c, PointedAt(c, t)) && OneDefault(PointedAt(c, t))
        && OneTimeoutAtMost(PointedAt(c, t))
  {
    Repoint(c, t.target);
    SameMenuReads(c, PointedAt(c, t), t.target);
    hide Segment;
    hide OneSegment;
  }

  // The three edits touch different lines, so they commute.

  lemma RepointRearm(c: Cfg, v: string, name: string, args: string)
    requires Armable(c, name)
    ensures Armable(Repointed(c, v), name) && Repointed(Rearmed(c, name, args), v) == Rearmed(Repointed(c, v),
        name, args)
  {
    SameMenuReads(c, Repointed(c, v), name);
    hide WithArgs;
    hide Segment;
  }

  lemma RetimeRearm(c: Cfg, v: string, name: string, args: string)
    requires Armable(c, name)
    ensures Armable(Retimed(c, v), name) && Retimed(Rearmed(c, name, args), v) == Rearmed(Retimed(c, v), name, args)
  {
    SameMenuReads(c, Retimed(c, v), name);
    hide WithArgs;
    hide Segment;
  }

  lemma RetimeUndoDefault(c: Cfg, t: Token, v: string)
    ensures UndoDefault(Retimed(c, v), t) == Retimed(UndoDefault(c, t), v)
  {
    SameMenuReads(c, Retimed(c, v), t.prevDefault);
    if HasDefault(c) { var i :| 0 <= i < |c| && c[i].Default?; assert Retimed(c, v)[i].Default?; }
  }

  lemma RearmTimeout(c: Cfg, name: string, args: string)
    requires Armable(c, name) && OneTimeoutAtMost(c)
    ensures OneTimeoutAtMost(Rearmed(c, name, args)) && CurrentTimeout(Rearmed(c, name, args)) == CurrentTimeout(c)
  {
    var d := Rearmed(c, name, args);
    assert forall i :: 0 <= i < |c| ==> (c[i].Timeout? <==> d[i].Timeout?) && (c[i].Timeout? ==> d[i] == c[i]);
    hide WithArgs;
    hide Segment;
    if i :| 0 <= i < |c| && c[i].Timeout? {
      TimeoutAt(c, i);
      TimeoutAt(d, i);
    } else {
      NoTimeout(c);
      NoTimeout(d);
    }
  }

  lemma {:induction false} NoTimeout(c: Cfg)
    requires forall i :: 0 <= i < |c| ==> !c[i].Timeout?
    ensures CurrentTimeout(c) == ""
    decreases |c|
  {
    if c != [] {
      assert forall i :: 0 <= i < |c[1..]| ==> c[1..][i] == c[i + 1];
      NoTimeout(c[1..]);
    }
  }

  lemma UndoPointed(c: Cfg, t: Token, args: string)
    requires WellFormed(c, t, args)
    ensures UndoDefault(PointedAt(c, t), t) == c
    ensures Armable(PointedAt(c, t), t.target) && UndoDefault(Armed(c, t, args), t) == Rearmed(c, t.target, args)
  {
    hide Segment;
    hide WithArgs;
    hide OneSegment;
    var p := PointedAt(c, t);
    Repoint(c, t.target);
    SameMenuReads(c, p, t.target);
    SameMenuReads(c, p, t.prevDefault);
    if t.target != t.prevDefault {
      RepointRearm(p, t.prevDefault, t.target, args);
      var a := Armed(c, t, args);
      SameMenuReads(p, a, t.prevDefault);
      assert HasDefault(a) by { var i :| 0 <= i < |p| && p[i].Default?; assert a[i].Default?; }
    }
  }

  /** From every stage of a flip the undo leads to the same file: the one before it,
      with the target's segment written afresh. */
  lemma EveryStageUndone(c: Cfg, t: Token, args: string)
    requires WellFormed(c, t, args)
    ensures Undone(PointedAt(c, t), t) == Tidied(c, t)
    ensures Armable(PointedAt(c, t), t.target) && Undone(Armed(c, t, args), t) == Tidied(c, t)
        && Undone(Ready(c, t, args), t) == Tidied(c, t)
  {
    UndoPointed(c, t, args);
    Rearm(c, t.target, args, t.prevArgs);
    RearmTimeout(c, t.target, t.prevArgs);
    Retime(Tidied(c, t), t);
    RetimeUndoDefault(Armed(c, t, args), t, "0");
    RetimeRearm(Rearmed(c, t.target, args), "0", t.target, t.prevArgs);
    hide UndoDefault;
    hide UndoTimeout;
    hide Rearmed;
    hide Armable;
    hide Retimed;
    hide OneSegment;
  }

  // ------------------------------------------------------------- what restore means

  /** Default, timeout, every entry and every entry's arguments read the same. */
  ghost predicate SameSettings(c: Cfg, d: Cfg) {
    && CurrentDefault(c) == CurrentDefault(d) && CurrentTimeout(c) == CurrentTimeout(d) && SameMenu(c, d)
    && forall name :: EntryArgs(c, name) == EntryArgs(d, name)
  }

  lemma {:induction false} SameLinesRead(c: Cfg, d: Cfg)
    requires |c| == |d| && forall i :: 0 <= i < |c| ==> c[i] == d[i] || (c[i].Entry? && d[i].Entry?)
    ensures CurrentDefault(c) == CurrentDefault(d) && CurrentTimeout(c) == CurrentTimeout(d)
    decreases |c|
  {
    if c != [] {
      assert forall i :: 0 <= i < |c[1..]| ==> c[1..][i] == c[i + 1] && d[1..][i] == d[i + 1];
      SameLinesRead(c[1..], d[1..]);
    }
  }

  /** Writing a target's own arguments back changes no setting if and only if they hold no marker. */
  lemma TidyingChangesNothing(c: Cfg, t: Token)
    requires Restorable(c, t.target) && t.prevArgs == ArgsOf(c[EntryLine(c, t.target)].text)
    ensures SameSettings(c, Tidied(c, t)) <==> NoMarker(Spaced(t.prevArgs))
  {
    var k, d := EntryLine(c, t.target), Tidied(c, t);
    var s := c[k].text;
    TrimTwice(if Segment(s).Some? then s[Segment(s).value.0..Segment(s).value.1] else "");
    ArgsComeBack(s, t.prevArgs);
    hide OneSegment;
    hide Segment;
    hide ArgsOf;
    hide WithArgs;
    hide NoMarker;
    SameLinesRead(c, d);
    assert SameMenu(c, d);
    forall name ensures EntryLine(c, name) == EntryLine(d, name) { SameMenuReads(c, d, name); }
    assert EntryArgs(d, t.target) == Some(ArgsOf(WithArgs(s, t.prevArgs))) && EntryArgs(c, t.target) == Some(ArgsOf(s));
    forall name | EntryLine(c, name) != k ensures EntryArgs(c, name) == EntryArgs(d, name) {}
  }

  /**
   Flip, then restore: whether the flip goes through and its restore runs, or fails at any of its
   writes, the default, the timeout, the entries and every entry's arguments end up as they were,
   provided the target's own arguments hold no marker.
   */
  lemma FlipThenRestore(c: Cfg, image: string, args: string, d: Cfg)
    requires var t := TokenFor(c, image);
             && WellFormed(c, t, args) && NoMarker(Spaced(t.prevArgs))
             && (FlipFailed(c, d, t, args) || (Armable(PointedAt(c, t), t.target) && d == Undone(Ready(c, t, args), t)))
    ensures SameSettings(c, d)
  {
    hide Undone;
    hide Ready;
    hide Armed;
    hide Armable;
    hide PointedAt;
    hide Tidied;
    hide OneSegment;
    hide NoMarker;
    hide SameSettings;
    var t := TokenFor(c, image);
    EveryStageUndone(c, t, args);
    OwnSettings(c);
    PrevArgsAre(c, t, image);
    TidyingChangesNothing(c, t);
  }

  lemma OwnSettings(c: Cfg)
    ensures SameSettings(c, c)
  {
  }

  lemma PrevArgsAre(c: Cfg, t: Token, image: string)
    requires t == TokenFor(c, image) && Restorable(c, t.target)
    ensures Armable(c, t.target) && t.prevArgs == ArgsOf(c[EntryLine(c, t.target)].text)
  {
    hide ArgsOf;
    hide OneSegment;
  }

  /** A flipped file, line by line. */
  lemma ReadyLine(c: Cfg, t: Token, args: string, i: nat)
    requires WellFormed(c, t, args) && i < |c| && Armable(PointedAt(c, t), t.target)
    ensures EntryLine(PointedAt(c, t), t.target) == EntryLine(c, t.target) && |Ready(c, t, args)| == |c|
    ensures Ready(c, t, args)[i] ==
            if c[i].Default? then Default(t.target) else if c[i].Timeout? then Timeout("0")
            else if i == EntryLine(c, t.target) then c[i].(text := WithArgs(c[i].text, args)) else c[i]
  {
    hide OneSegment;
    hide Segment;
    hide WithArgs;
    hide NoMarker;
    SameMenuReads(c, PointedAt(c, t), t.target);
    if c[i].Default? { DefaultAt(c, i); }
  }

  lemma ReadyReads(c: Cfg, t: Token, args: string)
    requires WellFormed(c, t, args) && Armable(PointedAt(c, t), t.target)
    ensures var r := Ready(c, t, args); CurrentDefault(r) == t.target && (HasTimeout(c) ==> CurrentTimeout(r) == "0")
  {
    var r := Ready(c, t, args);
    forall j | 0 <= j < |c| ensures |r| == |c| && (r[j].Default? <==> c[j].Default?)
        && (r[j].Timeout? <==> c[j].Timeout?) {
      ReadyLine(c, t, args, j);
    }
    hide OneSegment;
    hide Ready;
    hide NoMarker;
    var i :| 0 <= i < |c| && c[i].Default?;
    ReadyLine(c, t, args, i);
    DefaultAt(r, i);
    if j :| 0 <= j < |c| && c[j].Timeout? {
      ReadyLine(c, t, args, j);
      TimeoutAt(r, j);
    }
  }

  lemma ReadyArgs(c: Cfg, t: Token, args: string)
    requires WellFormed(c, t, args) && Armable(PointedAt(c, t), t.target)
    ensures EntryArgs(Ready(c, t, args), t.target) == Some(TrimSpace(args))
  {
    var k, r := EntryLine(c, t.target), Ready(c, t, args);
    WithArgsReads(c[k].text, args);
    ReadyLine(c, t, args, k);
    hide Segment;
    hide OneSegment;
    hide ArgsOf;
    hide WithArgs;
    hide NoMarker;
    forall i | 0 <= i < |c| ensures |r| == |c| && (c[i].Entry? <==> r[i].Entry?)
        && (c[i].Entry? ==> c[i].name == r[i].name && c[i].kernel == r[i].kernel) {
      ReadyLine(c, t, args, i);
    }
    SameMenuReads(c, r, t.target);
    hide Ready;
  }

  /** While a flip is in force only the target's line, the default and the timeout differ; the target reads as armed. */
  lemma ArmedOnlyTheTarget(c: Cfg, t: Token, args: string)
    requires WellFormed(c, t, args)
    ensures Armable(PointedAt(c, t), t.target)
    ensures var r := Ready(c, t, args);
            && CurrentDefault(r) == t.target && EntryArgs(r, t.target) == Some(TrimSpace(args))
            && (HasTimeout(c) ==> CurrentTimeout(r) == "0")
            && |r| == |c|
            && forall i :: 0 <= i < |c| && i != EntryLine(c, t.target) && !c[i].Default? && !c[i].Timeout?
                ==> r[i] == c[i]
  {
    PointedIsSafe(c, t, args);
    hide Segment;
    hide OneSegment;
    ReadyArgs(c, t, args);
    ReadyReads(c, t, args);
    var r := Ready(c, t, args);
    forall i | 0 <= i < |c|
      ensures |r| == |c| && (i != EntryLine(c, t.target) && !c[i].Default? && !c[i].Timeout? ==> r[i] == c[i])
    {
      ReadyLine(c, t, args, i);
    }
    hide Ready;
    hide WellFormed;
  }

  /** A target without an argument segment fails the flip at its second step, and the undo gives back the very file. */
  lemma UnarmableUndone(c: Cfg, t: Token)
    requires OneDefault(c) && OneTimeoutAtMost(c) && IsMenu(c, t.prevDefault)
    requires t.prevDefault == CurrentDefault(c) && t.prevTimeout == CurrentTimeout(c)
        && !Armable(PointedAt(c, t), t.target)
    ensures Undone(PointedAt(c, t), t) == c
  {
    hide Segment;
    Repoint(c, t.target);
    SameMenuReads(c, PointedAt(c, t), t.target);
    SameMenuReads(c, PointedAt(c, t), t.prevDefault);
    Retime(c, t);
  }

  lemma {:induction false} RetimedDefault(c: Cfg, v: string)
    ensures CurrentDefault(Retimed(c, v)) == CurrentDefault(c)
    decreases |c|
  {
    if c != [] {
      assert Retimed(c, v)[1..] == Retimed(c[1..], v);
      RetimedDefault(c[1..], v);
    }
  }

  lemma LaterStepsKeepDefault(c: Cfg, t: Token)
    ensures CurrentDefault(UndoTimeout(UndoArgs(c, t), t)) == CurrentDefault(c)
  {
    var d := UndoArgs(c, t);
    SameLinesRead(c, d);
    RetimedDefault(d, t.prevTimeout);
    hide Segment;
    hide WithArgs;
  }

  /**
   The old default comes back if and only if the flip left it alone or it names an entry: the writer
   points at nothing else.
   */
  lemma DefaultComesBack(c: Cfg, t: Token, args: string)
    requires OneDefault(c) && t.prevDefault == CurrentDefault(c) && Armable(PointedAt(c, t), t.target)
    ensures CurrentDefault(Undone(Ready(c, t, args), t)) == t.prevDefault
        <==> t.target == t.prevDefault || IsMenu(c, t.prevDefault)
  {
    hide Segment;
    hide WithArgs;
    var r := Ready(c, t, args);
    LaterStepsKeepDefault(UndoDefault(r, t), t);
    ReadyDefault(c, t, args);
    hide UndoArgs;
    hide UndoTimeout;
    hide Ready;
    hide EntryLine;
    Repoint(r, t.prevDefault);
  }

  lemma ReadyDefault(c: Cfg, t: Token, args: string)
    requires OneDefault(c) && t.prevDefault == CurrentDefault(c) && Armable(PointedAt(c, t), t.target)
    ensures var r := Ready(c, t, args);
            OneDefault(r) && CurrentDefault(r) == t.target && (IsMenu(r, t.prevDefault) <==> IsMenu(c, t.prevDefault))
  {
    hide Segment;
    hide WithArgs;
    var p, a, r := PointedAt(c, t), Armed(c, t, args), Ready(c, t, args);
    Repoint(c, t.target);
    SameLinesRead(p, a);
    RetimedDefault(a, "0");
    hide CurrentDefault;
    assert SameMenu(c, r);
    SameMenuReads(c, r, t.prevDefault);
    hide EntryLine;
    assert forall i :: 0 <= i < |c| ==> (c[i].Default? <==> r[i].Default?);
    var i :| 0 <= i < |c| && c[i].Default?;
    assert r[i].Default?;
  }
}
