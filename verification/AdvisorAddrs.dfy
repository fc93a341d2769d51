/** The addresses an advisor install is given: what the form suggests, and what the server accepts. */
module AdvisorAddrs {
  import opened Basics

  /** Framework load balancer, advisor load balancer and console pool; an empty text is no address. */
  datatype Addrs = Addrs(fwLB: string, ownLB: string, pool: seq<string>)

  /** Whether a text is an IP address is net.ParseIP's business. */
  type Reader = string -> bool

  ghost predicate DistinctAddrs(pool: seq<string>) {
    forall i, j :: 0 <= i < j < |pool| && pool[i] != "" ==> pool[i] != pool[j]
  }

  /** Well formed and free of overlaps: every origin has an address of its own. */
  ghost predicate Acceptable(a: Addrs, isIp: Reader) {
    && (a.ownLB != "" ==> isIp(a.ownLB))
    && (forall i :: 0 <= i < |a.pool| && a.pool[i] != "" ==>
        isIp(a.pool[i]) && a.pool[i] != a.ownLB && a.pool[i] != a.fwLB)
    && DistinctAddrs(a.pool)
    && (a.fwLB != "" ==> a.fwLB != a.ownLB)
  }

  method CheckAdvisorAddrs(a: Addrs, isIp: Reader) returns (ok: bool)
    ensures ok <==> Acceptable(a, isIp)
  {
    if a.ownLB != "" && !isIp(a.ownLB) { return false; }
    var seen: set<string> := {};
    for i := 0 to |a.pool|
      invariant seen == set k | 0 <= k < i && a.pool[k] != "" :: a.pool[k]
      invariant forall k :: 0 <= k < i && a.pool[k] != "" ==> isIp(a.pool[k]) && a.pool[k] != a.ownLB
      invariant forall j, k :: 0 <= j < k < i && a.pool[j] != "" ==> a.pool[j] != a.pool[k]
    {
      var p := a.pool[i];
      if p == "" { continue; }
      if !isIp(p) || p == a.ownLB { return false; }
      if p in seen { return false; }
      seen := seen + {p};
    }
    if a.fwLB != "" && a.fwLB == a.ownLB { return false; }
    if a.fwLB != "" && a.fwLB in seen { return false; }
    assert forall i :: 0 <= i < |a.pool| && a.pool[i] != "" ==> a.pool[i] in seen;
    return true;
  }

  function Without(free: seq<string>, taken: set<string>): (r: seq<string>)
    ensures forall x :: x in r <==> x in free && x !in taken
    ensures NoDup(free) ==> NoDup(r)
    decreases |free|
  {
    if free == [] then []
    else
      var last := free[|free| - 1];
      var r := Without(free[..|free| - 1], taken);
      assert forall x :: x in free <==> x in free[..|free| - 1] || x == last;
      assert NoDup(free) ==> last !in free[..|free| - 1];
      if last in taken then r else r + [last]
  }

  /** At most n elements, from the k-th on. */
  function Cut(s: seq<string>, k: nat, n: nat): (r: seq<string>)
    ensures |r| == if |s| <= k then 0 else if |s| - k > n then n else |s| - k
    ensures forall i :: 0 <= i < |r| ==> r[i] == s[k + i]
  {
    if |s| <= k then [] else if |s| - k > n then s[k..k + n] else s[k..]
  }

  /** The suggestion, as SuggestAddrs promises it. */
  ghost predicate Suggested(free: seq<string>, fwLB: string, ownLB: string, ownConsole: seq<string>, n: nat,
      a: Addrs, rest: seq<string>) {
    var i := if fwLB == "" then 1 else 0;
    var k := i + if ownLB == "" then 1 else 0;
    && rest == Without(free, {fwLB, ownLB} + Elems(ownConsole))
    && a.fwLB == (if fwLB != "" then fwLB else if |rest| > 0 then rest[0] else "")
    && a.ownLB == (if ownLB != "" then ownLB else if |rest| > i then rest[i] else "")
    && a.pool == if ownConsole != [] then ownConsole else Cut(rest, k, n)
  }

  /**
   The form's suggestions: what is in use stays, and what is missing is taken from the free
   addresses in order, the framework's first.
   */
  method SuggestAddrs(free: seq<string>, fwLB: string, ownLB: string, ownConsole: seq<string>, n: nat)
    returns (a: Addrs, rest: seq<string>)
    ensures Suggested(free, fwLB, ownLB, ownConsole, n, a, rest)
  {
    rest := [];
    for i := 0 to |free|
      invariant rest == Without(free[..i], {fwLB, ownLB} + Elems(ownConsole))
    {
      var x := free[i];
      assert free[..i + 1][..i] == free[..i];
      if x != fwLB && x != ownLB && x !in ownConsole {
        rest := rest + [x];
      }
    }
    assert free[..|free|] == free;
    var left := rest;
    var fw, own := fwLB, ownLB;
    if fw == "" && |left| > 0 { fw, left := left[0], left[1..]; }
    if own == "" && |left| > 0 { own, left := left[0], left[1..]; }
    if |ownConsole| > 0 { return Addrs(fw, own, ownConsole), rest; }
    ghost var k := (if fwLB == "" then 1 else 0) + if ownLB == "" then 1 else 0;
    assert left == if |rest| <= k then [] else rest[k..];
    if |left| > n { left := left[..n]; }
    assert left == Cut(rest, k, n);
    a := Addrs(fw, own, left);
  }

  /** Free addresses: no repetitions, none empty, all of them addresses. */
  ghost predicate WellGiven(free: seq<string>, isIp: Reader) {
    NoDup(free) && forall x :: x in free ==> x != "" && isIp(x)
  }

  /**
   What is suggested is accepted: whatever is in use already and however few addresses are free,
   the suggestion passes the check exactly when the addresses in use would pass it themselves.
   */
  method SuggestThenCheck(free: seq<string>, fwLB: string, ownLB: string, ownConsole: seq<string>, n: nat, isIp: Reader)
    returns (a: Addrs, ok: bool)
    requires WellGiven(free, isIp)
    ensures ok <==> Acceptable(Addrs(fwLB, ownLB, ownConsole), isIp)
    ensures ok <==> Acceptable(a, isIp)
    ensures (fwLB != "" ==> a.fwLB == fwLB) && (ownLB != "" ==> a.ownLB == ownLB)
        && (ownConsole != [] ==> a.pool == ownConsole)
    ensures ownConsole == [] ==> |a.pool| <= n && forall x :: x in a.pool ==> x in free
  {
    var rest;
    a, rest := SuggestAddrs(free, fwLB, ownLB, ownConsole, n);
    SuggestionFits(free, fwLB, ownLB, ownConsole, n, isIp, a, rest);
    ok := CheckAdvisorAddrs(a, isIp);
  }

  lemma SuggestionFits(free: seq<string>, fwLB: string, ownLB: string, ownConsole: seq<string>, n: nat,
      isIp: Reader, a: Addrs, rest: seq<string>)
    requires WellGiven(free, isIp) && Suggested(free, fwLB, ownLB, ownConsole, n, a, rest)
    ensures Acceptable(a, isIp) <==> Acceptable(Addrs(fwLB, ownLB, ownConsole), isIp)
    ensures ownConsole == [] ==> |a.pool| <= n && forall x :: x in a.pool ==> x in free
  {
    if Acceptable(Addrs(fwLB, ownLB, ownConsole), isIp) {
      AddsNoFlaw(free, fwLB, ownLB, ownConsole, n, isIp, a, rest);
    }
    if Acceptable(a, isIp) {
      KeepsFlaws(free, fwLB, ownLB, ownConsole, n, isIp, a, rest);
    }
    hide Acceptable;
    if ownConsole == [] {
      var k := (if fwLB == "" then 1 else 0) + if ownLB == "" then 1 else 0;
      assert a.pool == Cut(rest, k, n);
      hide Suggested;
      hide Cut;
      forall x | x in a.pool ensures x in free {
        var i :| 0 <= i < |a.pool| && a.pool[i] == x;
        assert rest[k + i] in rest;
      }
    }
  }

  /** What is free is an address nobody has. */
  lemma FreeIsApart(free: seq<string>, taken: set<string>, isIp: Reader)
    requires WellGiven(free, isIp)
    ensures var rest := Without(free, taken);
            NoDup(rest) && forall i :: 0 <= i < |rest| ==> isIp(rest[i]) && rest[i] != "" && rest[i] !in taken
  {
    var rest := Without(free, taken);
    assert forall i :: 0 <= i < |rest| ==> rest[i] in rest;
  }

  lemma AddsNoFlaw(free: seq<string>, fwLB: string, ownLB: string, ownConsole: seq<string>, n: nat, isIp: Reader,
      a: Addrs, rest: seq<string>)
    requires WellGiven(free, isIp) && Suggested(free, fwLB, ownLB, ownConsole, n, a, rest)
    requires Acceptable(Addrs(fwLB, ownLB, ownConsole), isIp)
    ensures Acceptable(a, isIp)
  {
    FreeIsApart(free, {fwLB, ownLB} + Elems(ownConsole), isIp);
    hide WellGiven;
    hide Without;
    if ownConsole == [] {
      NewPoolFits(fwLB, ownLB, n, isIp, a, rest);
    } else {
      assert forall i :: 0 <= i < |rest| ==> rest[i] !in ownConsole;
      assert forall i :: 0 <= i < |ownConsole| ==> ownConsole[i] in ownConsole;
      OldPoolFits(fwLB, ownLB, isIp, a, rest);
    }
    hide *;
  }

  predicate BalancersFrom(fwLB: string, ownLB: string, a: Addrs, rest: seq<string>) {
    var i := if fwLB == "" then 1 else 0;
    && a.fwLB == (if fwLB != "" then fwLB else if |rest| > 0 then rest[0] else "")
    && a.ownLB == (if ownLB != "" then ownLB else if |rest| > i then rest[i] else "")
  }

  lemma NewPoolFits(fwLB: string, ownLB: string, n: nat, isIp: Reader, a: Addrs, rest: seq<string>)
    requires BalancersFrom(fwLB, ownLB, a, rest) && NoDup(rest) && Acceptable(Addrs(fwLB, ownLB, []), isIp)
    requires forall i :: 0 <= i < |rest| ==> isIp(rest[i]) && rest[i] != "" && rest[i] != fwLB && rest[i] != ownLB
    requires a.pool == Cut(rest, (if fwLB == "" then 1 else 0) + (if ownLB == "" then 1 else 0), n)
    ensures Acceptable(a, isIp)
  {
    var k := (if fwLB == "" then 1 else 0) + if ownLB == "" then 1 else 0;
    forall i | 0 <= i < |a.pool| ensures isIp(a.pool[i]) && a.pool[i] != a.ownLB && a.pool[i] != a.fwLB {
      assert a.pool[i] == rest[k + i];
    }
    forall i, j | 0 <= i < j < |a.pool| ensures a.pool[i] != a.pool[j] {
      assert a.pool[i] == rest[k + i] && a.pool[j] == rest[k + j];
    }
    hide Cut;
  }

  lemma OldPoolFits(fwLB: string, ownLB: string, isIp: Reader, a: Addrs, rest: seq<string>)
    requires BalancersFrom(fwLB, ownLB, a, rest) && NoDup(rest) && Acceptable(Addrs(fwLB, ownLB, a.pool), isIp)
    requires forall i :: 0 <= i < |rest| ==> isIp(rest[i]) && rest[i] != "" && rest[i] != fwLB && rest[i] != ownLB
    requires forall i, j :: 0 <= i < |rest| && 0 <= j < |a.pool| ==> rest[i] != a.pool[j]
    ensures Acceptable(a, isIp)
  {
  }

  /** Nothing in use is dropped, so a flaw in it shows in the suggestion too. */
  lemma KeepsFlaws(free: seq<string>, fwLB: string, ownLB: string, ownConsole: seq<string>, n: nat, isIp: Reader,
      a: Addrs, rest: seq<string>)
    requires Suggested(free, fwLB, ownLB, ownConsole, n, a, rest) && Acceptable(a, isIp)
    ensures Acceptable(Addrs(fwLB, ownLB, ownConsole), isIp)
  {
  }

  /** Given enough free addresses nothing is left empty: both balancers have one, and the pool as many as asked for. */
  lemma EnoughIsFilled(free: seq<string>, fwLB: string, ownLB: string, ownConsole: seq<string>, n: nat, isIp: Reader,
      a: Addrs, rest: seq<string>)
    requires WellGiven(free, isIp) && Suggested(free, fwLB, ownLB, ownConsole, n, a, rest)
    requires |rest| >= (if fwLB == "" then 1 else 0) + (if ownLB == "" then 1 else 0)
    ensures a.fwLB != "" && a.ownLB != ""
    ensures ownConsole == [] && |rest| >= n + 2 ==> |a.pool| == n
    ensures forall x :: x in rest <==> x in free && x != fwLB && x != ownLB && x !in ownConsole
  {
    assert forall i :: 0 <= i < |rest| ==> rest[i] in rest;
  }
}
