// `split` from the graphics subsystem: cut a string at every occurrence of a
// delimiter, scanning left to right with `std::string::find`.
module SubsystemText {
  import opened Common

  /** The delimiter `d` occurs in `s` starting at index `k`. */
  predicate OccursAt(s: string, d: string, k: int)
  {
    0 <= k && k + |d| <= |s| && s[k..k + |d|] == d
  }

  /** `s.find(d, from)`: the first index at or after `from` where `d` occurs. */
  function Find(s: string, d: string, from: nat): (r: Option<nat>)
    requires from <= |s|
    ensures r.Some? ==> from <= r.value && OccursAt(s, d, r.value)
    decreases |s| - from
  {
    if from + |d| > |s| then None
    else if s[from..from + |d|] == d then Some(from)
    else if from == |s| then None
    else Find(s, d, from + 1)
  }

  /** `Find` misses no earlier occurrence, and finding none means there is
      none. */
  lemma {:induction false} FindLeast(s: string, d: string, from: nat)
    requires from <= |s|
    ensures Find(s, d, from).Some? ==> forall k :: from <= k < Find(s, d, from).value ==> !OccursAt(s, d, k)
    ensures Find(s, d, from).None? ==> forall k :: from <= k ==> !OccursAt(s, d, k)
    decreases |s| - from
  {
    if from + |d| <= |s| && s[from..from + |d|] != d && from < |s| {
      FindLeast(s, d, from + 1);
    }
  }

  /** The tokens `split` produces from position `from` onwards. */
  function SplitFrom(s: string, d: string, from: nat): seq<string>
    requires |d| > 0 && from <= |s|
    decreases |s| - from
  {
    match Find(s, d, from)
    case None => [s[from..]]
    case Some(p) => [s[from..p]] + SplitFrom(s, d, p + |d|)
  }

  /** One step of `SplitFrom` when a delimiter is found. */
  lemma SplitFromSome(s: string, d: string, from: nat)
    requires |d| > 0 && from <= |s| && Find(s, d, from).Some?
    ensures SplitFrom(s, d, from)
         == [s[from..Find(s, d, from).value]] + SplitFrom(s, d, Find(s, d, from).value + |d|)
  {
  }

  /** The last step of `SplitFrom`, when no delimiter is left. */
  lemma SplitFromNone(s: string, d: string, from: nat)
    requires |d| > 0 && from <= |s| && Find(s, d, from).None?
    ensures SplitFrom(s, d, from) == [s[from..]]
  {
  }

  /** The result of `split(s, d)`. */
  function SplitSpec(s: string, d: string): seq<string>
    requires |d| > 0
  {
    SplitFrom(s, d, 0)
  }

  /** The tokens glued back together with the delimiter between them. */
  function Join(tokens: seq<string>, d: string): string
  {
    if |tokens| == 0 then ""
    else if |tokens| == 1 then tokens[0]
    else tokens[0] + d + Join(tokens[1..], d)
  }

  /** Greedy count of non-overlapping occurrences of `d` in `s[from..]`,
      defined independently of `Find`: try every position from the left. */
  function CountFrom(s: string, d: string, from: nat): nat
    requires |d| > 0 && from <= |s|
    decreases |s| - from
  {
    if from + |d| > |s| then 0
    else if s[from..from + |d|] == d then 1 + CountFrom(s, d, from + |d|)
    else CountFrom(s, d, from + 1)
  }

  /** One turn of `split`'s loop keeps the tokens collected so far in step
      with `SplitFrom`. */
  lemma SplitStep(s: string, d: string, res: seq<string>, from: nat, all: seq<string>)
    requires |d| > 0 && from <= |s| && Find(s, d, from).Some?
    requires res + SplitFrom(s, d, from) == all
    ensures (res + [s[from..Find(s, d, from).value]]) + SplitFrom(s, d, Find(s, d, from).value + |d|) == all
  {
    var p := Find(s, d, from).value;
    SplitFromSome(s, d, from);
    var rest := SplitFrom(s, d, p + |d|);
    assert res + ([s[from..p]] + rest) == (res + [s[from..p]]) + rest;
  }

  /** `split(s, d)`, written as the source's loop over `find`. */
  method Split(s: string, d: string) returns (res: seq<string>)
    requires |d| > 0
    ensures res == SplitSpec(s, d)
    ensures |res| == CountFrom(s, d, 0) + 1
    ensures s == "" ==> res == [""]
  {
    var posStart: nat := 0;
    res := [];
    var found := Find(s, d, posStart);
    ghost var all := SplitFrom(s, d, 0);
    while found.Some?
      invariant posStart <= |s|
      invariant found == Find(s, d, posStart)
      invariant res + SplitFrom(s, d, posStart) == all
      decreases |s| - posStart
    {
      var posEnd := found.value;
      var token := s[posStart..posEnd];
      SplitStep(s, d, res, posStart, all);
      posStart := posEnd + |d|;
      res := res + [token];
      found := Find(s, d, posStart);
    }
    SplitFromNone(s, d, posStart);
    res := res + [s[posStart..]];
    SplitCount(s, d, 0);
  }

  /** `Join` of a list of at least two tokens, one step. */
  lemma JoinCons(x: string, rest: seq<string>, d: string)
    requires |rest| >= 1
    ensures Join([x] + rest, d) == x + d + Join(rest, d)
  {
    assert ([x] + rest)[1..] == rest;
  }

  /** A suffix of `s` cut at two further points. */
  lemma SuffixCut(s: string, a: nat, b: nat, c: nat)
    requires a <= b <= c <= |s|
    ensures s[a..] == s[a..b] + s[b..c] + s[c..]
  {
  }

  /** A suffix of `s` made of three parts, read back part by part. */
  lemma SuffixParts(s: string, from: nat, x: string, y: string, z: string)
    requires from <= |s| && s[from..] == x + y + z
    ensures s[from..from + |x|] == x
    ensures s[from..from + |x| + |y|] == x + y
    ensures s[from + |x| + |y|..] == z
  {
    var u := s[from..];
    assert u[..|x|] == x && u[..|x| + |y|] == x + y && u[|x| + |y|..] == z;
  }

  /** If the tokens after the first delimiter join back to the rest of the
      input, all the tokens join back to the whole. */
  lemma JoinSplitStep(s: string, d: string, from: nat)
    requires |d| > 0 && from <= |s| && Find(s, d, from).Some?
    requires Join(SplitFrom(s, d, Find(s, d, from).value + |d|), d) == s[Find(s, d, from).value + |d|..]
    ensures Join(SplitFrom(s, d, from), d) == s[from..]
  {
    var p := Find(s, d, from).value;
    var all := SplitFrom(s, d, from);
    var rest := SplitFrom(s, d, p + |d|);
    SplitFromParts(s, d, from);
    calc {
      Join(all, d);
      { JoinFirst(all, d); }
      all[0] + d + Join(all[1..], d);
      s[from..p] + d + Join(rest, d);
      { assert OccursAt(s, d, p); }
      s[from..p] + s[p..p + |d|] + s[p + |d|..];
      { SuffixCut(s, from, p, p + |d|); }
      s[from..];
    }
  }

  /** `SplitFromSome`, read off as the first token and the rest. */
  lemma SplitFromParts(s: string, d: string, from: nat)
    requires |d| > 0 && from <= |s| && Find(s, d, from).Some?
    ensures |SplitFrom(s, d, from)| >= 2
    ensures SplitFrom(s, d, from)[0] == s[from..Find(s, d, from).value]
    ensures SplitFrom(s, d, from)[1..] == SplitFrom(s, d, Find(s, d, from).value + |d|)
  {
    var p := Find(s, d, from).value;
    SplitFromSome(s, d, from);
    var rest := SplitFrom(s, d, p + |d|);
    assert |rest| >= 1;
    assert ([s[from..p]] + rest)[1..] == rest;
  }

  /** `Join` of at least two tokens, one step. */
  lemma JoinFirst(tokens: seq<string>, d: string)
    requires |tokens| >= 2
    ensures Join(tokens, d) == tokens[0] + d + Join(tokens[1..], d)
  {
  }

  /** Joining the tokens with the delimiter gives back the input. */
  lemma {:induction false} JoinSplit(s: string, d: string, from: nat)
    requires |d| > 0 && from <= |s|
    ensures Join(SplitFrom(s, d, from), d) == s[from..]
    decreases |s| - from
  {
    match Find(s, d, from)
    case None =>
      SplitFromNone(s, d, from);
    case Some(p) =>
      JoinSplit(s, d, p + |d|);
      JoinSplitStep(s, d, from);
  }

  /** Splitting and joining round-trips on the whole string. */
  lemma JoinSplitSpec(s: string, d: string)
    requires |d| > 0
    ensures Join(SplitSpec(s, d), d) == s
  {
    JoinSplit(s, d, 0);
    assert s[0..] == s;
  }

  /** `CountFrom` counts the occurrence `Find` returns and goes on after
      it. */
  lemma {:induction false} CountByFind(s: string, d: string, from: nat)
    requires |d| > 0 && from <= |s|
    ensures Find(s, d, from).None? ==> CountFrom(s, d, from) == 0
    ensures Find(s, d, from).Some? ==>
      CountFrom(s, d, from) == 1 + CountFrom(s, d, Find(s, d, from).value + |d|)
    decreases |s| - from
  {
    if from + |d| <= |s| && s[from..from + |d|] != d {
      CountByFind(s, d, from + 1);
    }
  }

  /** `split` yields exactly one more token than there are non-overlapping
      occurrences of the delimiter. */
  lemma {:induction false} SplitCount(s: string, d: string, from: nat)
    requires |d| > 0 && from <= |s|
    ensures |SplitFrom(s, d, from)| == CountFrom(s, d, from) + 1
    decreases |s| - from
  {
    CountByFind(s, d, from);
    match Find(s, d, from)
    case None =>
      SplitFromNone(s, d, from);
    case Some(p) =>
      SplitFromSome(s, d, from);
      SplitCount(s, d, p + |d|);
  }

  /** A window of `s` in which `d` starts nowhere holds no occurrence. */
  lemma WindowAvoids(s: string, d: string, from: nat, to: nat, k: int)
    requires |d| > 0 && from <= to <= |s|
    requires forall j :: from <= j < to ==> !OccursAt(s, d, j)
    ensures !OccursAt(s[from..to], d, k)
  {
    var t := s[from..to];
    if OccursAt(t, d, k) {
      ShiftOccurrence(s, t, from, from + k, d);
    }
  }

  /** The first token contains no occurrence of the delimiter. */
  lemma HeadAvoidsDelimiter(s: string, d: string, from: nat, k: int)
    requires |d| > 0 && from <= |s|
    ensures !OccursAt(SplitFrom(s, d, from)[0], d, k)
  {
    FindLeast(s, d, from);
    match Find(s, d, from)
    case None =>
      SplitFromNone(s, d, from);
      WindowAvoids(s, d, from, |s|, k);
      assert s[from..] == s[from..|s|];
    case Some(p) =>
      SplitFromSome(s, d, from);
      WindowAvoids(s, d, from, p, k);
  }

  /** No token contains the delimiter. */
  lemma {:induction false} TokensAvoidDelimiter(s: string, d: string, from: nat, i: nat, k: int)
    requires |d| > 0 && from <= |s|
    requires i < |SplitFrom(s, d, from)|
    ensures !OccursAt(SplitFrom(s, d, from)[i], d, k)
    decreases |s| - from
  {
    if i == 0 {
      HeadAvoidsDelimiter(s, d, from, k);
    } else {
      match Find(s, d, from)
      case None =>
        SplitFromNone(s, d, from);
      case Some(p) =>
        SplitFromSome(s, d, from);
        TokensAvoidDelimiter(s, d, p + |d|, i - 1, k);
    }
  }

  /** A token that can stand before a delimiter: no occurrence of `d` starts
      inside it, even one running on into the delimiter that follows. */
  predicate Clean(t: string, d: string)
  {
    forall k :: 0 <= k < |t| ==> !OccursAt(t + d, d, k)
  }

  /** For a one-character delimiter, clean means the character is absent. */
  lemma CleanChar(t: string, c: char)
    ensures Clean(t, [c]) <==> c !in t
  {
    if c in t {
      var k :| 0 <= k < |t| && t[k] == c;
      assert (t + [c])[k..k + 1] == [c];
      assert OccursAt(t + [c], [c], k);
    } else {
      forall k | 0 <= k < |t| ensures !OccursAt(t + [c], [c], k) {
        assert (t + [c])[k..k + 1] == [t[k]];
      }
    }
  }

  /** An occurrence inside a window of `s` is an occurrence in the window. */
  lemma ShiftOccurrence(s: string, u: string, from: nat, k: int, d: string)
    requires from + |u| <= |s| && s[from..from + |u|] == u
    requires from <= k && k + |d| <= from + |u|
    ensures OccursAt(s, d, k) <==> OccursAt(u, d, k - from)
  {
    var x, y := s[k..k + |d|], u[k - from..k - from + |d|];
    forall i | 0 <= i < |d| ensures x[i] == y[i] {
      assert s[from..from + |u|][k - from + i] == s[k + i];
    }
    assert s[k..k + |d|] == u[k - from..k - from + |d|];
  }

  /** `Find` returns an occurrence with none before it. */
  lemma FindFirst(s: string, d: string, from: nat, p: nat)
    requires from <= p <= |s| && OccursAt(s, d, p)
    requires forall k :: from <= k < p ==> !OccursAt(s, d, k)
    ensures Find(s, d, from) == Some(p)
  {
    FindLeast(s, d, from);
    var f := Find(s, d, from);
    assert f.Some?;
    assert !OccursAt(s, d, f.value) || f.value >= p;
  }

  /** A clean last token holds no occurrence at all. */
  lemma CleanTail(s: string, d: string, from: nat)
    requires |d| > 0 && from <= |s| && Clean(s[from..], d)
    ensures Find(s, d, from).None?
  {
    var t := s[from..];
    forall k | from <= k ensures !OccursAt(s, d, k) {
      if OccursAt(s, d, k) {
        ShiftOccurrence(s, t, from, k, d);
        assert (t + d)[k - from..k - from + |d|] == t[k - from..k - from + |d|];
        assert OccursAt(t + d, d, k - from);
      }
    }
  }

  /** Before the first delimiter of a clean token there is no occurrence. */
  lemma CleanHead(s: string, d: string, from: nat, t: string)
    requires |d| > 0 && from + |t| + |d| <= |s| && s[from..from + |t| + |d|] == t + d && Clean(t, d)
    ensures Find(s, d, from) == Some(from + |t|)
  {
    var u := t + d;
    var p := from + |t|;
    forall k | from <= k < p ensures !OccursAt(s, d, k) {
      ShiftOccurrence(s, u, from, k, d);
    }
    ShiftOccurrence(s, u, from, p, d);
    assert u[|t|..|t| + |d|] == d;
    FindFirst(s, d, from, p);
  }

  /** A token without the delimiter's first character is clean. */
  lemma CleanWithoutLead(t: string, d: string)
    requires |d| > 0 && d[0] !in t
    ensures Clean(t, d)
  {
    forall k | 0 <= k < |t| ensures !OccursAt(t + d, d, k) {
      assert (t + d)[k] == t[k] != d[0];
    }
  }

  /** A clean token followed by the delimiter is split off as one token. */
  lemma SplitJoinStep(s: string, d: string, from: nat, t: string, rest: seq<string>)
    requires |d| > 0 && from + |t| + |d| <= |s|
    requires s[from..from + |t| + |d|] == t + d && Clean(t, d)
    requires SplitFrom(s, d, from + |t| + |d|) == rest
    ensures SplitFrom(s, d, from) == [t] + rest
  {
    CleanHead(s, d, from, t);
    SplitFromSome(s, d, from);
    assert s[from..from + |t|] == (t + d)[..|t|] == t;
  }

  lemma {:induction false} SplitJoinFrom(s: string, d: string, from: nat, tokens: seq<string>)
    requires |d| > 0 && from <= |s| && |tokens| >= 1
    requires forall i :: 0 <= i < |tokens| ==> Clean(tokens[i], d)
    requires s[from..] == Join(tokens, d)
    ensures SplitFrom(s, d, from) == tokens
    decreases |tokens|
  {
    var t := tokens[0];
    assert Clean(t, d);
    if |tokens| == 1 {
      CleanTail(s, d, from);
      SplitFromNone(s, d, from);
      assert tokens == [t];
    } else {
      var rest := tokens[1..];
      assert tokens == [t] + rest;
      JoinCons(t, rest, d);
      SuffixParts(s, from, t, d, Join(rest, d));
      SplitJoinFrom(s, d, from + |t| + |d|, rest);
      SplitJoinStep(s, d, from, t, rest);
    }
  }

  /** Splitting the joined clean tokens gives them back: `split` inverts
      `Join` on every list of clean tokens. */
  lemma SplitJoin(tokens: seq<string>, d: string)
    requires |d| > 0 && |tokens| >= 1
    requires forall i :: 0 <= i < |tokens| ==> Clean(tokens[i], d)
    ensures SplitSpec(Join(tokens, d), d) == tokens
  {
    var s := Join(tokens, d);
    assert s[0..] == s;
    SplitJoinFrom(s, d, 0, tokens);
  }

  /** Every `c` removed, everything else kept in order (the
      `erase(remove(...))` idiom). */
  function Strip(s: string, c: char): string
  {
    if s == [] then [] else if s[0] == c then Strip(s[1..], c) else [s[0]] + Strip(s[1..], c)
  }

  /** Stripping leaves no `c` behind and keeps every other character as
      often as it occurred. */
  lemma {:induction false} StripRemoves(s: string, c: char)
    ensures c !in Strip(s, c)
    ensures |Strip(s, c)| <= |s|
    ensures forall x :: x != c ==> multiset(Strip(s, c))[x] == multiset(s)[x]
  {
    if s != [] {
      StripRemoves(s[1..], c);
      assert s == [s[0]] + s[1..];
    }
  }
}
