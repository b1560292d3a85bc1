/**
  Host list expansion: a comma list of host names and name[ranges] segments, split
  by a loop over positions found in the text and expanded with zero padding.
 */
module HostList {
  import opened Common
  import opened Wire

  // ---------------------------------------------------------------- string helpers

  /** str.find from a non-negative position; -1 when there is none. */
  function Find(s: string, ch: char, start: nat): (i: int)
    ensures -1 <= i < |s|
    ensures i >= 0 ==> start <= i && s[i] == ch && forall j :: start <= j < i ==> s[j] != ch
    ensures i == -1 ==> forall j :: start <= j < |s| ==> s[j] != ch
    decreases |s| - start
  {
    if start >= |s| then -1 else if s[start] == ch then start else Find(s, ch, start + 1)
  }

  /** str.find from any position: a negative one counts from the end. */
  function FindFrom(s: string, ch: char, start: int): int {
    Find(s, ch, if start >= 0 then start else if |s| + start >= 0 then |s| + start else 0)
  }

  /** s[:k] and s[k+1:] for a position that may be -1. */
  function Before(s: string, k: int): string
    requires -1 <= k <= |s|
  {
    if k >= 0 then s[..k] else if s == "" then "" else s[..|s| - 1]
  }

  function Behind(s: string, k: int): string
    requires -1 <= k < |s|
  {
    s[k + 1..]
  }

  /** What str.strip removes. */
  predicate Space(c: char) {
    || '\t' <= c <= '\r' || '\U{1C}' <= c <= ' ' || c == '\U{85}' || c == '\U{A0}' || c == '\U{1680}'
    || '\U{2000}' <= c <= '\U{200A}' || c == '\U{2028}' || c == '\U{2029}' || c == '\U{202F}'
    || c == '\U{205F}' || c == '\U{3000}'
  }

  /** str.strip */
  function Strip(s: string): string {
    if s == "" then ""
    else if Space(s[0]) then Strip(s[1..])
    else if Space(s[|s| - 1]) then Strip(s[..|s| - 1])
    else s
  }

  /** Blanks go at both ends, nothing else, until there are none. */
  lemma {:induction false} StripIs(s: string) returns (i: nat, j: nat)
    ensures i <= j <= |s| && Strip(s) == s[i..j]
    ensures forall k :: 0 <= k < i || j <= k < |s| ==> Space(s[k])
    ensures i < j ==> !Space(s[i]) && !Space(s[j - 1])
    decreases |s|
  {
    if s == "" {
      i, j := 0, 0;
    } else if Space(s[0]) {
      i, j := StripIs(s[1..]);
      assert s[1..][i..j] == s[i + 1..j + 1];
      forall k | 0 <= k < i + 1 || j + 1 <= k < |s| ensures Space(s[k]) {
        assert k > 0 ==> s[k] == s[1..][k - 1];
      }
      i, j := i + 1, j + 1;
    } else if Space(s[|s| - 1]) {
      i, j := StripIs(s[..|s| - 1]);
      assert s[..|s| - 1][i..j] == s[i..j];
      forall k | 0 <= k < i || j <= k < |s| ensures Space(s[k]) {
        assert k < |s| - 1 ==> s[k] == s[..|s| - 1][k];
      }
    } else {
      i, j := 0, |s|;
      assert s[..] == s;
    }
  }

  lemma StripPlain(s: string)
    requires forall c :: c in s ==> !Space(c)
    ensures Strip(s) == s
  {
    if s != "" { assert s[0] in s && s[|s| - 1] in s; }
  }

  // ---------------------------------------------------------------- splitting

  /** The comma after skipping those inside the first bracket pair. */
  function SkipInside(s: string, c: int, o: int, b: int): (r: int)
    requires -1 <= c < |s|
    ensures -1 <= r < |s|
    ensures r >= 0 ==> r >= c && (c >= 0 && s[c] == ',' ==> s[r] == ',')
    decreases |s| - c
  {
    if o < c < b && c >= 0 then
      var n := Find(s, ',', c + 1);
      if n == -1 then -1 else SkipInside(s, n, o, b)
    else c
  }

  /** The pieces split_on_commas leaves, before stripping. */
  function Pieces(s: string): seq<string>
    decreases |s|
  {
    var o, b := Find(s, '[', 0), Find(s, ']', 0);
    var c := SkipInside(s, Find(s, ',', 0), o, b);
    if c < o || c > b then
      var k := FindFrom(s, ',', c);
      if c == -1 || o == -1 || k == -1 then [Before(s, k), Behind(s, k)] else [Before(s, k)] + Pieces(Behind(s, k))
    else Split(s, ',')
  }

  function StripAll(l: seq<string>): seq<string> {
    seq(|l|, i requires 0 <= i < |l| => Strip(l[i]))
  }

  lemma CommaAt(s: string, c: nat)
    requires c < |s| && s[c] == ','
    ensures FindFrom(s, ',', c) == c
  {
  }

  method SkipCommas(s: string, c0: int, o: int, b: int) returns (c: int)
    requires -1 <= c0 < |s| && o >= -1
    ensures c == SkipInside(s, c0, o, b)
  {
    c := c0;
    while c > o && c < b
      invariant -1 <= c < |s| && SkipInside(s, c0, o, b) == SkipInside(s, c, o, b)
      decreases if c == -1 then 0 else |s| - c
    {
      c := Find(s, ',', c + 1);
    }
  }

  method StripEach(pieces: seq<string>) returns (l: seq<string>)
    ensures l == StripAll(pieces)
  {
    l := pieces;
    for i := 0 to |pieces|
      invariant |l| == |pieces|
      invariant forall j :: 0 <= j < i ==> l[j] == Strip(pieces[j])
      invariant forall j :: i <= j < |l| ==> l[j] == pieces[j]
    {
      l := l[i := Strip(l[i])];
    }
  }

  /** The state of the splitting loop: the finished pieces, then the rest. */
  predicate Splitting(expr: string, l: seq<string>, s: string, ended: bool) {
    if ended then l == Pieces(expr)
    else if l == [] then s == expr
    else l[|l| - 1] == s && l[..|l| - 1] + Pieces(s) == Pieces(expr)
  }

  /** split_on_commas: each round replaces the unsplit rest, the last element, by
      its first piece and a shorter rest. It ends on every input. */
  method SplitOnCommas(expr: string) returns (l: seq<string>)
    ensures l == StripAll(Pieces(expr))
  {
    l := [];
    var s, o, c, stop := expr, 0, 0, false;
    while !stop && c != -1 && o != -1
      invariant Splitting(expr, l, s, stop || c == -1 || o == -1)
      decreases !stop, |s|, c != -1 && o != -1
    {
      ghost var done := if l == [] then [] else l[..|l| - 1];
      assert done + Pieces(s) == Pieces(expr) by { assert l == [] ==> [] + Pieces(s) == Pieces(s); }
      o := Find(s, '[', 0);
      var b := Find(s, ']', 0);
      c := SkipCommas(s, Find(s, ',', 0), o, b);
      if |l| > 0 { l := l[..|l| - 1]; }
      assert l == done;
      if c < o || c > b {
        var k := FindFrom(s, ',', c);
        l := l + [Before(s, k), Behind(s, k)];
        NextPiece(expr, done, s, o, b, c, k);
        s := l[|l| - 1];
      } else {
        l := l + Split(s, ',');
        stop := true;
      }
    }
    l := StripEach(l);
  }

  lemma NextPiece(expr: string, done: seq<string>, s: string, o: int, b: int, c: int, k: int)
    requires done + Pieces(s) == Pieces(expr)
    requires o == Find(s, '[', 0) && b == Find(s, ']', 0) && c == SkipInside(s, Find(s, ',', 0), o, b)
    requires (c < o || c > b) && k == FindFrom(s, ',', c)
    ensures Splitting(expr, done + [Before(s, k), Behind(s, k)], Behind(s, k), c == -1 || o == -1)
    ensures c != -1 && o != -1 ==> |Behind(s, k)| < |s|
  {
    PiecesStep(s, o, b, c, k);
    if c != -1 && o != -1 { MorePieces(expr, done, s, Before(s, k), Behind(s, k)); }
  }

  lemma MorePieces(expr: string, done: seq<string>, s: string, first: string, rest: string)
    requires done + Pieces(s) == Pieces(expr) && Pieces(s) == [first] + Pieces(rest)
    ensures Splitting(expr, done + [first, rest], rest, false)
  {
    Regroup(done, first, rest, Pieces(rest));
  }

  lemma PiecesStep(s: string, o: int, b: int, c: int, k: int)
    requires o == Find(s, '[', 0) && b == Find(s, ']', 0) && c == SkipInside(s, Find(s, ',', 0), o, b)
    requires (c < o || c > b) && k == FindFrom(s, ',', c)
    ensures c == -1 || o == -1 ==> Pieces(s) == [Before(s, k), Behind(s, k)]
    ensures c != -1 && o != -1 ==> k == c && Pieces(s) == [Before(s, k)] + Pieces(Behind(s, k))
  {
    if c >= 0 {
      assert s[c] == ',';
      CommaAt(s, c);
    }
  }

  lemma Regroup(done: seq<string>, first: string, rest: string, more: seq<string>)
    ensures (done + [first, rest])[..|done| + 1] + more == done + ([first] + more)
  {
    assert (done + [first, rest])[..|done| + 1] == done + [first];
  }

  // ---------------------------------------------------------------- expansion

  function Zeros(k: nat): string { seq(k, _ => '0') }

  /** "{:0wd}".format(n) */
  function Pad(w: nat, n: nat): string {
    var d := Decimal(n);
    if |d| >= w then d else Zeros(w - |d|) + d
  }

  /** The padded numbers from lo to hi, behind a host name. */
  function Numbered(node: string, w: nat, lo: nat, hi: nat): seq<string>
    decreases hi + 1 - lo
  {
    if lo > hi then [] else [node + Pad(w, lo)] + Numbered(node, w, lo + 1, hi)
  }

  /** One entry between the brackets; None is the ValueError of int(). An entry
      with more than one dash is skipped. */
  function ExpandRange(node: string, r: string): Option<seq<string>> {
    var cur := Split(r, '-');
    if |cur| == 2 then
      match (ParseDecimal(cur[0]), ParseDecimal(cur[1]))
      case (Some(lo), Some(hi)) => Some(Numbered(node, |cur[0]|, lo, hi))
      case _ => None
    else if |cur| == 1 then
      match ParseDecimal(cur[0])
      case Some(n) => Some([node + Pad(|cur[0]|, n)])
      case None => None
    else Some([])
  }

  /** Results appended in order; one failure fails all. */
  function Gather(xs: seq<Option<seq<string>>>): Option<seq<string>> {
    if xs == [] then Some([])
    else match (Gather(xs[..|xs| - 1]), xs[|xs| - 1])
      case (Some(front), Some(last)) => Some(front + last)
      case _ => None
  }

  lemma GatherPush(xs: seq<Option<seq<string>>>, x: Option<seq<string>>)
    ensures Gather(xs + [x]) ==
            if Gather(xs).Some? && x.Some? then Some(Gather(xs).value + x.value) else None
  {
    assert (xs + [x])[..|xs|] == xs;
  }

  lemma {:induction false} GatherCons(x: seq<string>, xs: seq<Option<seq<string>>>)
    requires Gather(xs).Some?
    ensures Gather([Some(x)] + xs) == Some(x + Gather(xs).value)
    decreases |xs|
  {
    if xs == [] {
      assert [Some(x)] + xs == [] + [Some(x)];
      GatherPush([], Some(x));
      assert [] + x == x && x + [] == x;
    } else {
      var front, last := xs[..|xs| - 1], xs[|xs| - 1];
      GatherCons(x, front);
      assert [Some(x)] + xs == ([Some(x)] + front) + [last];
      GatherPush([Some(x)] + front, last);
      assert x + (Gather(front).value + last.value) == x + Gather(front).value + last.value;
    }
  }

  lemma {:induction false} GatherFails(xs: seq<Option<seq<string>>>, k: nat)
    requires k < |xs| && xs[k].None?
    ensures Gather(xs).None?
    decreases |xs|
  {
    if k < |xs| - 1 { GatherFails(xs[..|xs| - 1], k); }
  }

  /** One more result: the gathered hosts grow by it, or all fails. */
  lemma GatherNext(xs: seq<Option<seq<string>>>, i: nat)
    requires i < |xs| && Gather(xs[..i]).Some?
    ensures xs[i].Some? ==> Gather(xs[..i + 1]) == Some(Gather(xs[..i]).value + xs[i].value)
    ensures xs[i].None? ==> Gather(xs).None?
  {
    assert xs[..i + 1] == xs[..i] + [xs[i]];
    GatherPush(xs[..i], xs[i]);
    if xs[i].None? { GatherFails(xs, i); }
  }

  function RangeResults(node: string, rs: seq<string>): seq<Option<seq<string>>> {
    seq(|rs|, i requires 0 <= i < |rs| => ExpandRange(node, rs[i]))
  }

  /** expand_host_list_sub */
  function ExpandSub(expr: string): Option<seq<string>> {
    var o := Find(expr, '[', 0);
    var b := FindFrom(expr, ']', o);
    if o == -1 && b == -1 then Some(Split(expr, ','))
    else if o == -1 || b == -1 then Some([])
    else Gather(RangeResults(expr[..o], Split(expr[o + 1..b], ',')))
  }

  function SubResults(l: seq<string>): seq<Option<seq<string>>> {
    seq(|l|, i requires 0 <= i < |l| => ExpandSub(l[i]))
  }

  method ExpandHostListSub(expr: string) returns (r: Option<seq<string>>)
    ensures r == ExpandSub(expr)
  {
    var o := Find(expr, '[', 0);
    var b := FindFrom(expr, ']', o);
    if o == -1 && b == -1 { return Some(Split(expr, ',')); }
    if o == -1 || b == -1 { return Some([]); }
    r := ExpandEach(expr[..o], Split(expr[o + 1..b], ','));
  }

  method ExpandEach(node: string, ranges: seq<string>) returns (r: Option<seq<string>>)
    ensures r == Gather(RangeResults(node, ranges))
  {
    ghost var xs := RangeResults(node, ranges);
    var hosts: seq<string> := [];
    for i := 0 to |ranges|
      invariant Gather(xs[..i]) == Some(hosts)
    {
      var one := AppendRange(node, ranges[i]);
      assert xs[i] == one;
      GatherNext(xs, i);
      if one.None? { return None; }
      hosts := hosts + one.value;
    }
    assert xs[..|ranges|] == xs;
    return Some(hosts);
  }

  method AppendRange(node: string, r: string) returns (hosts: Option<seq<string>>)
    ensures hosts == ExpandRange(node, r)
  {
    var cur := Split(r, '-');
    if |cur| == 2 {
      var lo, hi := ParseDecimal(cur[0]), ParseDecimal(cur[1]);
      if lo.None? || hi.None? { return None; }
      var out: seq<string> := [];
      var idx := lo.value;
      while idx <= hi.value
        invariant out + Numbered(node, |cur[0]|, idx, hi.value) == Numbered(node, |cur[0]|, lo.value, hi.value)
        decreases if idx <= hi.value then hi.value + 1 - idx else 0
      {
        out := out + [node + Pad(|cur[0]|, idx)];
        idx := idx + 1;
      }
      assert out + [] == out;
      return Some(out);
    } else if |cur| == 1 {
      var n := ParseDecimal(cur[0]);
      if n.None? { return None; }
      return Some([node + Pad(|cur[0]|, n.value)]);
    }
    return Some([]);
  }

  function Expand(expr: string): Option<seq<string>> {
    Gather(SubResults(StripAll(Pieces(expr))))
  }

  /** expand_host_list */
  method ExpandHostList(expr: string) returns (r: Option<seq<string>>)
    ensures r == Expand(expr)
  {
    var l := SplitOnCommas(expr);
    ghost var xs := SubResults(l);
    var hosts: seq<string> := [];
    for i := 0 to |l|
      invariant Gather(xs[..i]) == Some(hosts)
    {
      var one := ExpandHostListSub(l[i]);
      assert xs[i] == one;
      GatherNext(xs, i);
      if one.None? { return None; }
      hosts := hosts + one.value;
    }
    assert xs[..|l|] == xs;
    return Some(hosts);
  }

  // ---------------------------------------------------------------- the grammar

  datatype Range = One(lo: string) | Span(lo: string, hi: string)
  datatype Seg = Plain(name: string) | Bracket(name: string, ranges: seq<Range>)

  predicate Digits(s: string) { s != "" && forall c :: c in s ==> IsDigit(c) }

  predicate NameOk(s: string) {
    forall c :: c in s ==> c != '[' && c != ']' && c != ',' && !Space(c)
  }

  predicate RangeOk(r: Range) { Digits(r.lo) && (r.Span? ==> Digits(r.hi)) }

  predicate SegOk(g: Seg) {
    NameOk(g.name) && (g.Bracket? ==> g.ranges != [] && forall r :: r in g.ranges ==> RangeOk(r))
  }

  function RangeText(r: Range): string {
    if r.One? then r.lo else r.lo + "-" + r.hi
  }

  function RangesText(rs: seq<Range>): string
    requires rs != []
  {
    if |rs| == 1 then RangeText(rs[0]) else RangeText(rs[0]) + "," + RangesText(rs[1..])
  }

  function SegText(g: Seg): string
    requires SegOk(g)
  {
    if g.Plain? then g.name else g.name + "[" + RangesText(g.ranges) + "]"
  }

  function Render(gs: seq<Seg>): string
    requires gs != [] && forall g :: g in gs ==> SegOk(g)
  {
    if |gs| == 1 then SegText(gs[0]) else SegText(gs[0]) + "," + Render(gs[1..])
  }

  function Value(s: string): nat
    requires Digits(s)
  {
    if |s| == 1 then assert s[0] in s; (s[0] - '0') as nat
    else
      assert forall c :: c in s[..|s| - 1] ==> c in s;
      assert s[|s| - 1] in s;
      10 * Value(s[..|s| - 1]) + (s[|s| - 1] - '0') as nat
  }

  /** What a list means: names as they are, ranges counted with the width of
      their first bound. */
  function RangeHosts(name: string, r: Range): seq<string>
    requires RangeOk(r)
  {
    if r.One? then [name + r.lo]
    else
      var lo, hi := Value(r.lo), Value(r.hi);
      seq(if lo <= hi then hi - lo + 1 else 0, i requires 0 <= i => name + Pad(|r.lo|, lo + i))
  }

  function RangesHosts(name: string, rs: seq<Range>): seq<string>
    requires forall r :: r in rs ==> RangeOk(r)
  {
    if rs == [] then [] else RangeHosts(name, rs[0]) + RangesHosts(name, rs[1..])
  }

  function SegHosts(g: Seg): seq<string>
    requires SegOk(g)
  {
    if g.Plain? then [g.name] else RangesHosts(g.name, g.ranges)
  }

  function Hosts(gs: seq<Seg>): seq<string>
    requires forall g :: g in gs ==> SegOk(g)
  {
    if gs == [] then [] else SegHosts(gs[0]) + Hosts(gs[1..])
  }

  // ---------------------------------------------------------------- numbers

  lemma {:induction false} ValueParses(s: string)
    requires Digits(s)
    ensures ParseDecimal(s) == Some(Value(s))
    decreases |s|
  {
    assert s[|s| - 1] in s;
    if |s| > 1 {
      assert forall c :: c in s[..|s| - 1] ==> c in s;
      ValueParses(s[..|s| - 1]);
    }
  }

  lemma {:induction false} PadExact(s: string)
    requires Digits(s)
    ensures |Decimal(Value(s))| <= |s| && Pad(|s|, Value(s)) == s
    decreases |s|
  {
    var last := s[|s| - 1];
    assert last in s && IsDigit(last);
    if |s| == 1 {
      assert s == [last];
    } else {
      var front := s[..|s| - 1];
      assert forall c :: c in front ==> c in s;
      PadExact(front);
      var d := (last - '0') as nat;
      assert Value(s) == 10 * Value(front) + d;
      PadPush(|front|, Value(front), d);
      LastChar(s, d);
    }
  }

  /** What is printed for a number: all its digits, behind as many zeros as it
      takes to fill the width. */
  lemma PadIs(w: nat, n: nat)
    ensures var t, d := Pad(w, n), Decimal(n);
            && |t| == (if |d| < w then w else |d|)
            && t[|t| - |d|..] == d
            && forall i :: 0 <= i < |t| - |d| ==> t[i] == '0'
  {
  }

  lemma LastChar(s: string, d: nat)
    requires s != "" && IsDigit(s[|s| - 1]) && d < 10 && d == (s[|s| - 1] - '0') as nat
    ensures s == s[..|s| - 1] + [Digit(d)]
  {
    assert s[|s| - 1] == Digit(d);
  }

  lemma PadPush(w: nat, v: nat, d: nat)
    requires d < 10 && w > 0 && |Decimal(v)| <= w
    ensures |Decimal(10 * v + d)| <= w + 1 && Pad(w + 1, 10 * v + d) == Pad(w, v) + [Digit(d)]
  {
    if v == 0 {
      assert Decimal(d) == [Digit(d)] && Decimal(0) == ['0'];
      assert Zeros(w) + [Digit(d)] == Zeros(w - 1) + ['0'] + [Digit(d)];
      assert Pad(w, 0) == Zeros(w - 1) + ['0'];
    } else {
      assert (10 * v + d) / 10 == v && (10 * v + d) % 10 == d;
      assert Decimal(10 * v + d) == Decimal(v) + [Digit(d)];
      var z := Zeros(w - |Decimal(v)|);
      assert z + (Decimal(v) + [Digit(d)]) == z + Decimal(v) + [Digit(d)];
    }
  }

  lemma {:induction false} NumberedSize(name: string, w: nat, lo: nat, hi: nat)
    ensures |Numbered(name, w, lo, hi)| == if lo <= hi then hi - lo + 1 else 0
    decreases hi + 1 - lo
  {
    if lo <= hi { NumberedSize(name, w, lo + 1, hi); }
  }

  lemma {:induction false} NumberedAt(name: string, w: nat, lo: nat, hi: nat, i: nat)
    requires i < |Numbered(name, w, lo, hi)|
    ensures Numbered(name, w, lo, hi)[i] == name + Pad(w, lo + i)
    decreases i
  {
    if i > 0 { NumberedAt(name, w, lo + 1, hi, i - 1); }
  }

  lemma NumberedHosts(name: string, w: nat, lo: nat, hi: nat)
    ensures Numbered(name, w, lo, hi) ==
            seq(if lo <= hi then hi - lo + 1 else 0, i requires 0 <= i => name + Pad(w, lo + i))
  {
    var hosts := Numbered(name, w, lo, hi);
    NumberedSize(name, w, lo, hi);
    forall i | 0 <= i < |hosts| ensures hosts[i] == name + Pad(w, lo + i) { NumberedAt(name, w, lo, hi, i); }
  }

  // ---------------------------------------------------------------- malformed entries

  function Dashes(s: string): nat {
    if s == "" then 0 else Dashes(s[1..]) + if s[0] == '-' then 1 else 0
  }

  lemma {:induction false} SplitCounts(s: string)
    ensures |Split(s, '-')| == Dashes(s) + 1
    decreases |s|
  {
    if s != "" { SplitCounts(s[1..]); }
  }

  lemma {:induction false} ParsesIff(s: string)
    ensures ParseDecimal(s).Some? <==> Digits(s)
    decreases |s|
  {
    if |s| > 1 {
      var front, last := s[..|s| - 1], s[|s| - 1];
      ParsesIff(front);
      assert s == front + [last];
    } else if s != "" {
      assert s == [s[0]];
    }
  }

  /** An entry between the brackets with two dashes or more is skipped; one whose
      bounds are not numbers raises; nothing else fails. */
  lemma EntryFailsIff(node: string, lo: string, hi: string, more: string)
    requires '-' !in lo && '-' !in hi
    ensures ExpandRange(node, lo).None? <==> !Digits(lo)
    ensures ExpandRange(node, lo + "-" + hi).None? <==> !(Digits(lo) && Digits(hi))
    ensures Dashes(more) >= 2 ==> ExpandRange(node, more) == Some([])
  {
    SplitPlain(lo, '-');
    SplitFirst(lo, '-', hi);
    SplitPlain(hi, '-');
    assert |Split(lo + "-" + hi, '-')| == 2;
    ParsesIff(lo);
    ParsesIff(hi);
    SplitCounts(more);
  }

  /** A piece with only one kind of bracket expands to nothing; one without
      brackets to its comma-separated names. */
  lemma UnpairedExpandsToNothing(s: string)
    ensures '[' in s && ']' !in s ==> ExpandSub(s) == Some([])
    ensures '[' !in s && ']' in s ==> ExpandSub(s) == Some(if s[|s| - 1] == ']' then [] else Split(s, ','))
    ensures '[' !in s && ']' !in s ==> ExpandSub(s) == Some(Split(s, ','))
  {
  }

  // ---------------------------------------------------------------- one segment

  lemma RangeTextChars(r: Range)
    requires RangeOk(r)
    ensures forall c :: c in RangeText(r) ==> IsDigit(c) || c == '-'
  {
  }

  lemma RangeExpands(name: string, r: Range)
    requires RangeOk(r)
    ensures ExpandRange(name, RangeText(r)) == Some(RangeHosts(name, r))
  {
    if r.One? { OneExpands(name, r.lo); } else { SpanOk(name, r.lo, r.hi); }
  }

  lemma OneExpands(name: string, lo: string)
    requires Digits(lo)
    ensures ExpandRange(name, lo) == Some([name + lo])
  {
    ValueParses(lo);
    SplitPlain(lo, '-');
    PadExact(lo);
  }

  lemma SpanOk(name: string, lo: string, hi: string)
    requires Digits(lo) && Digits(hi)
    ensures ExpandRange(name, lo + "-" + hi) == Some(RangeHosts(name, Span(lo, hi)))
  {
    ValueParses(lo);
    ValueParses(hi);
    assert Split(lo + "-" + hi, '-') == [lo] + [hi] by {
      SplitFirst(lo, '-', hi);
      SplitPlain(hi, '-');
    }
    SpanExpands(name, lo + "-" + hi, lo, hi, Value(lo), Value(hi));
    NumberedHosts(name, |lo|, Value(lo), Value(hi));
  }

  lemma SpanExpands(name: string, text: string, lo: string, hi: string, m: nat, n: nat)
    requires Split(text, '-') == [lo] + [hi] && ParseDecimal(lo) == Some(m) && ParseDecimal(hi) == Some(n)
    ensures ExpandRange(name, text) == Some(Numbered(name, |lo|, m, n))
  {
    var cur := Split(text, '-');
    assert |cur| == 2 && cur[0] == lo && cur[1] == hi;
  }

  lemma RangeResultsCons(node: string, r: string, rs: seq<string>)
    ensures RangeResults(node, [r] + rs) == [ExpandRange(node, r)] + RangeResults(node, rs)
  {
  }

  lemma {:induction false} RangesExpand(name: string, rs: seq<Range>)
    requires rs != [] && forall r :: r in rs ==> RangeOk(r)
    ensures Gather(RangeResults(name, Split(RangesText(rs), ','))) == Some(RangesHosts(name, rs))
    decreases |rs|
  {
    var t := RangeText(rs[0]);
    RangeTextChars(rs[0]);
    RangeExpands(name, rs[0]);
    var more: seq<string> := [];
    if |rs| == 1 {
      SplitPlain(t, ',');
      assert [t] + [] == [t] && rs[1..] == [];
    } else {
      SplitFirst(t, ',', RangesText(rs[1..]));
      assert RangesText(rs) == t + [','] + RangesText(rs[1..]);
      RangesExpand(name, rs[1..]);
      more := Split(RangesText(rs[1..]), ',');
    }
    RangeResultsCons(name, t, more);
    GatherCons(RangeHosts(name, rs[0]), RangeResults(name, more));
  }

  lemma {:induction false} RangesChars(rs: seq<Range>)
    requires rs != [] && forall r :: r in rs ==> RangeOk(r)
    ensures forall c :: c in RangesText(rs) ==> IsDigit(c) || c == '-' || c == ','
    decreases |rs|
  {
    RangeTextChars(rs[0]);
    if |rs| > 1 { RangesChars(rs[1..]); }
  }

  lemma NameChars(g: Seg, tail: string)
    requires SegOk(g) && g.Bracket?
    ensures var s := SegText(g) + tail;
            && s[|g.name|] == '[' && s[|SegText(g)| - 1] == ']'
            && forall k :: 0 <= k < |g.name| ==> s[k] != ',' && s[k] != '[' && s[k] != ']'
  {
    var s := SegText(g) + tail;
    forall k | 0 <= k < |g.name| ensures s[k] != ',' && s[k] != '[' && s[k] != ']' {
      assert s[k] == g.name[k] && g.name[k] in g.name;
    }
  }

  /** Where the brackets of a text that starts with a bracket segment are. */
  lemma BracketPositions(g: Seg, tail: string)
    requires SegOk(g) && g.Bracket?
    ensures var s := SegText(g) + tail;
            Find(s, '[', 0) == |g.name| && Find(s, ']', 0) == |SegText(g)| - 1
  {
    var t, s := SegText(g), SegText(g) + tail;
    NameChars(g, tail);
    forall j | 0 <= j < |t| - 1 ensures s[j] != ']' {
      if j > |g.name| { RangeChar(g, tail, j); }
    }
  }

  lemma RangeChar(g: Seg, tail: string, j: nat)
    requires SegOk(g) && g.Bracket? && |g.name| < j < |SegText(g)| - 1
    ensures (SegText(g) + tail)[j] != ']'
  {
    var rt := RangesText(g.ranges);
    RangesChars(g.ranges);
    assert (SegText(g) + tail)[j] == rt[j - |g.name| - 1];
    assert rt[j - |g.name| - 1] in rt;
  }

  lemma BracketExpands(g: Seg)
    requires SegOk(g) && g.Bracket?
    ensures ExpandSub(SegText(g)) == Some(SegHosts(g))
  {
    var t, o := SegText(g), |g.name|;
    BracketPositions(g, "");
    assert t + "" == t;
    assert FindFrom(t, ']', o) == |t| - 1 by { assert Find(t, ']', o) >= 0; }
    assert t[..o] == g.name && t[o + 1..|t| - 1] == RangesText(g.ranges);
    RangesExpand(g.name, g.ranges);
  }

  /** The truncated copy of the last segment has no closing bracket. */
  lemma TruncatedExpandsToNothing(g: Seg)
    requires SegOk(g) && g.Bracket?
    ensures ExpandSub(SegText(g)[..|SegText(g)| - 1]) == Some([])
  {
    var t := SegText(g);
    BracketPositions(g, "");
    assert t + "" == t;
    var cut := t[..|t| - 1];
    assert forall j :: 0 <= j < |cut| ==> cut[j] == t[j] && cut[j] != ']';
    assert cut[|g.name|] == '[';
  }

  lemma PlainExpands(s: string)
    requires '[' !in s && ']' !in s
    ensures ExpandSub(s) == Some(Split(s, ','))
  {
    assert Find(s, '[', 0) == -1;
    assert FindFrom(s, ']', -1) == -1;
  }

  // ---------------------------------------------------------------- whole lists

  predicate NoSpace(s: string) { forall c :: c in s ==> !Space(c) }

  predicate AllPlain(gs: seq<Seg>) { forall g :: g in gs ==> g.Plain? }

  lemma SegNoSpace(g: Seg)
    requires SegOk(g)
    ensures NoSpace(SegText(g)) && (g.Plain? ==> '[' !in SegText(g) && ']' !in SegText(g) && ',' !in SegText(g))
  {
    if g.Bracket? { RangesChars(g.ranges); }
  }

  lemma {:induction false} RenderChars(gs: seq<Seg>)
    requires gs != [] && forall g :: g in gs ==> SegOk(g)
    ensures NoSpace(Render(gs))
    ensures if AllPlain(gs) then '[' !in Render(gs) && ']' !in Render(gs) else '[' in Render(gs)
    decreases |gs|
  {
    SegNoSpace(gs[0]);
    if gs[0].Bracket? { assert SegText(gs[0])[|gs[0].name|] == '['; }
    if |gs| > 1 { RenderChars(gs[1..]); }
  }

  /** Skipping from inside the brackets ends at the first comma behind them. */
  lemma {:induction false} SkipsBracket(s: string, k: nat, o: int, b: nat)
    requires -1 <= o < k <= b < |s|
    ensures SkipInside(s, Find(s, ',', k), o, b) == Find(s, ',', b)
    decreases b - k
  {
    var c := Find(s, ',', k);
    if c != -1 && c < b {
      SkipsBracket(s, c + 1, o, b);
    }
  }

  lemma FindShift(s: string, ch: char, i: nat, j: nat)
    requires i <= j <= |s| && forall k :: i <= k < j ==> s[k] != ch
    ensures Find(s, ch, i) == Find(s, ch, j)
  {
  }

  /** The comma behind a leading bracket pair is found first. */
  lemma CommaBehind(s: string, o: nat, b: nat)
    requires o < b < |s| && s[o] == '[' && s[b] == ']' && forall k :: 0 <= k < o ==> s[k] != ','
    ensures SkipInside(s, Find(s, ',', 0), o, b) == Find(s, ',', b + 1)
  {
    FindShift(s, ',', 0, o + 1);
    SkipsBracket(s, o + 1, o, b);
    FindShift(s, ',', b, b + 1);
  }

  lemma CutAt(s: string, c: nat)
    requires c < |s| && s[c] == ','
    requires var o, b := Find(s, '[', 0), Find(s, ']', 0);
             o != -1 && SkipInside(s, Find(s, ',', 0), o, b) == c && (c < o || c > b)
    ensures Pieces(s) == [s[..c]] + Pieces(s[c + 1..])
  {
    CommaAt(s, c);
  }

  lemma CommaCut(t: string, rest: string)
    ensures var s := t + "," + rest; s[|t|] == ',' && s[..|t|] == t && s[|t| + 1..] == rest
  {
  }

  lemma PlainFirst(t: string, rest: string)
    requires '[' !in t && ']' !in t && ',' !in t && '[' in rest
    ensures Pieces(t + "," + rest) == [t] + Pieces(rest)
  {
    var s := t + "," + rest;
    assert forall j :: 0 <= j < |t| ==> s[j] == t[j] && t[j] in t;
    assert s[|t|] == ',' && s[..|t|] == t && s[|t| + 1..] == rest;
    var i :| 0 <= i < |rest| && rest[i] == '[';
    assert s[|t| + 1 + i] == '[';
    assert Find(s, ',', 0) == |t| && Find(s, '[', 0) > |t|;
    CutAt(s, |t|);
  }

  lemma BracketFirst(g: Seg, rest: string)
    requires SegOk(g) && g.Bracket?
    ensures Pieces(SegText(g) + "," + rest) == [SegText(g)] + Pieces(rest)
  {
    var t := SegText(g);
    FirstComma(g, "," + rest);
    assert t + ("," + rest) == t + "," + rest;
    CommaCut(t, rest);
    CutAt(t + "," + rest, |t|);
  }

  /** The first comma behind the brackets is the one behind the segment. */
  lemma FirstComma(g: Seg, tail: string)
    requires SegOk(g) && g.Bracket? && tail != "" && tail[0] == ','
    ensures var s, t := SegText(g) + tail, SegText(g);
            var o, b := Find(s, '[', 0), Find(s, ']', 0);
            -1 < o < |t| && b == |t| - 1 && SkipInside(s, Find(s, ',', 0), o, b) == |t|
  {
    var s, t := SegText(g) + tail, SegText(g);
    BracketPositions(g, tail);
    NameChars(g, tail);
    CommaBehind(s, |g.name|, |t| - 1);
    assert s[|t|] == ',';
  }

  /** Unless only plain names are left, the first segment is split off whole. */
  lemma FirstPiece(gs: seq<Seg>)
    requires |gs| > 1 && (forall g :: g in gs ==> SegOk(g)) && !AllPlain(gs)
    ensures Pieces(Render(gs)) == [SegText(gs[0])] + Pieces(Render(gs[1..]))
  {
    TailOk(gs);
    if gs[0].Plain? {
      SegNoSpace(gs[0]);
      RenderChars(gs[1..]);
      PlainFirst(gs[0].name, Render(gs[1..]));
    } else {
      BracketFirst(gs[0], Render(gs[1..]));
    }
  }

  lemma TailOk(gs: seq<Seg>)
    requires |gs| > 1 && (forall g :: g in gs ==> SegOk(g)) && !AllPlain(gs)
    ensures SegOk(gs[0]) && (forall g :: g in gs[1..] ==> SegOk(g)) && (gs[0].Plain? ==> !AllPlain(gs[1..]))
    ensures Render(gs) == SegText(gs[0]) + "," + Render(gs[1..])
  {
    assert gs == [gs[0]] + gs[1..];
  }

  lemma StripCons(x: string, l: seq<string>)
    ensures StripAll([x] + l) == [Strip(x)] + StripAll(l)
  {
  }

  lemma SubCons(x: string, l: seq<string>)
    ensures SubResults([x] + l) == [ExpandSub(x)] + SubResults(l)
  {
  }

  /** One more piece in front. */
  lemma ExpandStripped(x: string, l: seq<string>)
    requires NoSpace(x) && ExpandSub(x).Some? && Gather(SubResults(StripAll(l))).Some?
    ensures Gather(SubResults(StripAll([x] + l))) == Some(ExpandSub(x).value + Gather(SubResults(StripAll(l))).value)
  {
    StripPlain(x);
    StripCons(x, l);
    SubCons(x, StripAll(l));
    GatherCons(ExpandSub(x).value, SubResults(StripAll(l)));
  }

  lemma {:induction false} PlainHosts(gs: seq<Seg>)
    requires gs != [] && (forall g :: g in gs ==> SegOk(g)) && AllPlain(gs)
    ensures Split(Render(gs), ',') == Hosts(gs)
    decreases |gs|
  {
    var t := SegText(gs[0]);
    SegNoSpace(gs[0]);
    if |gs| == 1 {
      SplitPlain(t, ',');
      assert gs[1..] == [];
    } else {
      SplitFirst(t, ',', Render(gs[1..]));
      PlainHosts(gs[1..]);
    }
  }

  lemma ExpandLast(x: string)
    requires NoSpace(x) && ExpandSub(x).Some?
    ensures Gather(SubResults(StripAll([x]))) == ExpandSub(x)
  {
    assert StripAll([]) == [] && SubResults([]) == [] && [x] + [] == [x];
    ExpandStripped(x, []);
    assert ExpandSub(x).value + [] == ExpandSub(x).value;
  }

  lemma PlainPieces(t: string, rest: string)
    requires '[' !in t && ']' !in t && ',' !in t && '[' !in rest && ']' !in rest
    ensures Pieces(t) == [t] && Pieces(t + "," + rest) == [t, rest]
  {
    var s := t + "," + rest;
    SplitPlain(t, ',');
    assert Find(t, '[', 0) == -1 && Find(t, ']', 0) == -1 && Find(t, ',', 0) == -1;
    assert forall j :: 0 <= j < |t| ==> s[j] == t[j] && t[j] in t;
    assert forall j :: 0 <= j < |rest| ==> s[|t| + 1 + j] == rest[j] && rest[j] in rest;
    assert forall j :: |t| < j < |s| ==> s[j] == rest[j - |t| - 1];
    assert s[|t|] == ',' && s[..|t|] == t && s[|t| + 1..] == rest;
    assert Find(s, '[', 0) == -1 && Find(s, ']', 0) == -1 && Find(s, ',', 0) == |t|;
    CommaAt(s, |t|);
  }

  lemma PlainList(gs: seq<Seg>)
    requires gs != [] && (forall g :: g in gs ==> SegOk(g)) && AllPlain(gs)
    ensures Expand(Render(gs)) == Some(Hosts(gs))
  {
    var t := SegText(gs[0]);
    SegNoSpace(gs[0]);
    PlainExpands(t);
    SplitPlain(t, ',');
    if |gs| == 1 {
      PlainPieces(t, "");
      ExpandLast(t);
      assert gs[1..] == [] && [t] + [] == [t];
    } else {
      var rest := Render(gs[1..]);
      RenderChars(gs[1..]);
      PlainHosts(gs[1..]);
      PlainPieces(t, rest);
      PlainExpands(rest);
      ExpandLast(rest);
      ExpandStripped(t, [rest]);
      assert [t] + [rest] == [t, rest];
    }
  }

  lemma NoCommaLeft(g: Seg)
    requires SegOk(g) && g.Bracket?
    ensures Pieces(SegText(g)) == [SegText(g)[..|SegText(g)| - 1], SegText(g)]
  {
    var s := SegText(g);
    BracketPositions(g, "");
    NameChars(g, "");
    assert s + "" == s;
    CommaBehind(s, |g.name|, |s| - 1);
    assert Find(s, ',', |s|) == -1;
    assert FindFrom(s, ',', -1) == -1;
  }

  /** A last bracket segment is emitted twice, once without its last character. */
  lemma LastBracket(g: Seg)
    requires SegOk(g) && g.Bracket?
    ensures Expand(SegText(g)) == Some(SegHosts(g))
  {
    var s := SegText(g);
    SegNoSpace(g);
    NoCommaLeft(g);
    var cut := s[..|s| - 1];
    assert NoSpace(cut) by { assert forall c :: c in cut ==> c in s; }
    TruncatedExpandsToNothing(g);
    BracketExpands(g);
    TwoPieces(cut, s, SegHosts(g));
  }

  lemma TwoPieces(cut: string, s: string, hosts: seq<string>)
    requires NoSpace(cut) && NoSpace(s) && ExpandSub(cut) == Some([]) && ExpandSub(s) == Some(hosts)
    ensures Gather(SubResults(StripAll([cut, s]))) == Some(hosts)
  {
    ExpandLast(s);
    ExpandStripped(cut, [s]);
    assert [cut] + [s] == [cut, s] && [] + hosts == hosts;
  }

  /** Every comma list of plain names and bracketed ranges expands to the in-order
      concatenation of its segments' hosts. */
  lemma {:induction false} ExpansionIsGrammar(gs: seq<Seg>)
    requires gs != [] && forall g :: g in gs ==> SegOk(g)
    ensures Expand(Render(gs)) == Some(Hosts(gs))
    decreases |gs|
  {
    if AllPlain(gs) {
      PlainList(gs);
    } else if |gs| == 1 {
      LastBracket(gs[0]);
      assert gs[1..] == [] && SegHosts(gs[0]) + [] == SegHosts(gs[0]);
    } else {
      var t := SegText(gs[0]);
      FirstPiece(gs);
      ExpansionIsGrammar(gs[1..]);
      SegNoSpace(gs[0]);
      if gs[0].Plain? {
        PlainExpands(t);
        SplitPlain(t, ',');
      } else {
        BracketExpands(gs[0]);
      }
      ExpandStripped(t, Pieces(Render(gs[1..])));
    }
  }
}
