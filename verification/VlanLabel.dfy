/** A VLAN's 802.1Q tag lives in its label: written by the editors, read back by the generator. */
module VlanLabel {
  import opened Basics
  import opened Decimal

  /** Index of the last dot; the length of the label when there is none. */
  function LastDot(s: string): (k: nat)
    ensures k <= |s|
    ensures k < |s| ==> s[k] == '.' && forall i :: k < i < |s| ==> s[i] != '.'
    ensures k == |s| ==> '.' !in s
    decreases |s|
  {
    if s == [] then 0
    else if s[|s| - 1] == '.' then |s| - 1
    else
      var k := LastDot(s[..|s| - 1]);
      if k < |s| - 1 then k else |s|
  }

  /** The tag a label carries, 0 when it carries none that can be read. */
  function VlanTag(name: string): int {
    var k := LastDot(name);
    if k == |name| then 0
    else match Atoi(name[k + 1..]) case Number(n) => n case _ => 0
  }

  function Label(parent: string, tag: int): string { parent + "." + Itoa(tag) }

  /** The part behind the last dot is all that counts. */
  lemma LastDotBehind(prefix: string, rest: string)
    ensures LastDot(prefix + "." + rest) == |prefix| + (if '.' in rest then 1 + LastDot(rest) else 0)
  {
    var s := prefix + "." + rest;
    assert forall i :: 0 <= i < |rest| ==> s[|prefix| + 1 + i] == rest[i];
    assert s[|prefix|] == '.';
    var k := LastDot(s);
    if '.' in rest {
      var j := LastDot(rest);
      assert s[|prefix| + 1 + j] == '.';
      assert forall i :: j < i < |rest| ==> rest[i] != '.';
    } else {
      assert forall i :: 0 <= i < |rest| ==> rest[i] in rest;
    }
  }

  /** A label written for a tag is read back as that tag; beyond 64 bits it reads as none. */
  lemma LabelParsesBack(parent: string, tag: int)
    ensures VlanTag(Label(parent, tag)) == if INT64_MIN <= tag <= INT64_MAX then tag else 0
  {
    ItoaPlain(tag);
    ItoaRoundTrip(tag);
    LastDotBehind(parent, Itoa(tag));
    assert Label(parent, tag)[|parent| + 1..] == Itoa(tag);
  }

  /** Swapping what stands before a dot of a label does not change the tag it carries. */
  lemma RelabelKeepsTag(before: string, after: string, rest: string)
    ensures VlanTag(after + "." + rest) == VlanTag(before + "." + rest)
  {
    LastDotBehind(before, rest);
    LastDotBehind(after, rest);
    var k := if '.' in rest then 1 + LastDot(rest) else 0;
    hide LastDot;
    hide Atoi;
    assert (before + "." + rest)[|before| + k + 1..] == (after + "." + rest)[|after| + k + 1..];
  }
}
