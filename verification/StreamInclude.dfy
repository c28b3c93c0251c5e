/**
 The marked block the panel keeps in nginx.conf: the regular expression that finds it, and what putting it in and
 taking it out do to the text.
 */
module StreamInclude {
  import opened Prelude
  import opened Text

  /** A block of text between two marker lines. */
  datatype Block = Block(begin: string, body: string, end: string)
  {
    function Rendered(): string {
      begin + "\n" + body + "\n" + end + "\n"
    }

    /** The markers are single lines, neither holds the other, and none starts inside the body. */
    predicate Proper() {
      Marker(begin) && Marker(end) && !(end <= begin) && '#' !in body
    }
  }

  /** A line that starts with its only '#'. */
  predicate Marker(m: string) {
    m != "" && m[0] == '#' && '#' !in m[1..] && '\n' !in m
  }

  function MarkerLine(word: string): string {
    "#" + (" --- " + word + " 3AX-UI STREAM ---")
  }

  function StreamBlock(confRoot: string): Block {
    Block(MarkerLine("BEGIN"), "stream {\n    include " + confRoot + "/stream-enabled/*.conf;\n}", MarkerLine("END"))
  }

  lemma NoneOf(c: char, x: string, y: string, z: string)
    requires c !in x && c !in y && c !in z
    ensures c !in x + y + z
  {
  }

  lemma MarkerLineIsMarker(word: string)
    requires '#' !in word && '\n' !in word
    ensures Marker(MarkerLine(word))
  {
    var rest := " --- " + word + " 3AX-UI STREAM ---";
    NoneOf('#', " --- ", word, " 3AX-UI STREAM ---");
    NoneOf('\n', " --- ", word, " 3AX-UI STREAM ---");
    assert ("#" + rest)[1..] == rest;
  }

  lemma OneIsNoPrefix(x: string, y: string, i: nat)
    requires i < |x| && i < |y| && x[i] != y[i]
    ensures !(x <= y)
  {
  }

  lemma MarkersAreMarkers()
    ensures Marker(MarkerLine("BEGIN")) && Marker(MarkerLine("END"))
  {
    MarkerLineIsMarker("BEGIN");
    MarkerLineIsMarker("END");
  }

  lemma MarkersDiffer()
    ensures !(MarkerLine("END") <= MarkerLine("BEGIN"))
  {
    OneIsNoPrefix(MarkerLine("END"), MarkerLine("BEGIN"), 6);
  }

  lemma StreamBlockIsProper(confRoot: string)
    requires '#' !in confRoot
    ensures StreamBlock(confRoot).Proper()
  {
    MarkersAreMarkers();
    MarkersDiffer();
    NoneOf('#', "stream {\n    include ", confRoot, "/stream-enabled/*.conf;\n}");
  }

  /** What stands before and after the first occurrence of a pattern. */
  function CutAt(s: string, pattern: string): (c: Option<(string, string)>)
    requires pattern != ""
    ensures c.Some? ==> s == c.value.0 + pattern + c.value.1
  {
    if pattern <= s then Some(("", s[|pattern|..]))
    else if s == "" then None
    else match CutAt(s[1..], pattern) case None => None case Some((x, y)) => Some(([s[0]] + x, y))
  }

  function WithoutBreakAfter(s: string): string {
    if s != "" && s[|s| - 1] == '\n' then s[..|s| - 1] else s
  }

  function WithoutBreakBefore(s: string): string {
    if s != "" && s[0] == '\n' then s[1..] else s
  }

  /** What stands before and after the leftmost match of `(?s)\n?BEGIN.*?END\n?`. */
  function FirstMatch(s: string, k: Block): (m: Option<(string, string)>)
    requires k.Proper()
    ensures m.Some? ==> |m.value.0| + |m.value.1| < |s|
  {
    match CutAt(s, k.begin)
    case None => None
    case Some((x, y)) =>
      match CutAt(y, k.end)
      case None => None
      case Some((_, v)) => Some((WithoutBreakAfter(x), WithoutBreakBefore(v)))
  }

  predicate HasBlock(s: string, k: Block)
    requires k.Proper()
  {
    FirstMatch(s, k).Some?
  }

  function ReplaceAll(s: string, k: Block, by_: string): string
    requires k.Proper()
    decreases |s|
  {
    match FirstMatch(s, k)
    case None => s
    case Some((before, after)) => before + by_ + ReplaceAll(after, k, by_)
  }

  function Blocks(s: string, k: Block): nat
    requires k.Proper()
    decreases |s|
  {
    match FirstMatch(s, k)
    case None => 0
    case Some((_, after)) => 1 + Blocks(after, k)
  }

  function StripInclude(main: string, k: Block): string
    requires k.Proper()
  {
    ReplaceAll(main, k, "\n")
  }

  function TrimNewlines(s: string): string {
    if s != "" && s[|s| - 1] == '\n' then TrimNewlines(s[..|s| - 1]) else s
  }

  // ---- somebody else's stream block ----

  /** A line without its comment. */
  function Code(line: string): string {
    if line == "" || line[0] == '#' then "" else [line[0]] + Code(line[1..])
  }

  function Count(s: string, c: char): nat {
    if s == "" then 0 else (if s[0] == c then 1 else 0) + Count(s[1..], c)
  }

  predicate OpensStream(line: string) {
    var trimmed := TrimSpace(Code(line));
    trimmed == "stream" || "stream " <= trimmed || "stream{" <= trimmed
  }

  /** The brace depth after some lines, which never goes below zero. */
  function Depth(lines: seq<string>): nat {
    if lines == [] then 0
    else
      var code := Code(lines[|lines| - 1]);
      var d := Depth(lines[..|lines| - 1]) + Count(code, '{') - Count(code, '}');
      if d < 0 then 0 else d
  }

  /** Outside all braces, this line opens a stream block. */
  predicate OpensAt(lines: seq<string>, i: nat)
    requires i < |lines|
  {
    Depth(lines[..i]) == 0 && OpensStream(lines[i])
  }

  predicate ForeignStreamBlock(main: string, k: Block)
    requires k.Proper()
  {
    var lines := Split(StripInclude(main, k), '\n');
    exists i :: 0 <= i < |lines| && OpensAt(lines, i)
  }

  lemma DepthStep(lines: seq<string>, i: nat)
    requires i < |lines|
    ensures var d := Depth(lines[..i]) + Count(Code(lines[i]), '{') - Count(Code(lines[i]), '}');
            Depth(lines[..i + 1]) == if d < 0 then 0 else d
  {
    assert lines[..i + 1][..i] == lines[..i];
  }

  method OpensBlock(lines: seq<string>) returns (found: bool)
    ensures found <==> exists i :: 0 <= i < |lines| && OpensAt(lines, i)
  {
    var depth: int := 0;
    for i := 0 to |lines|
      invariant depth == Depth(lines[..i])
      invariant forall j :: 0 <= j < i ==> !OpensAt(lines, j)
    {
      if depth == 0 && OpensStream(lines[i]) {
        assert OpensAt(lines, i);
        return true;
      }
      assert !OpensAt(lines, i);
      DepthStep(lines, i);
      depth := depth + Count(Code(lines[i]), '{') - Count(Code(lines[i]), '}');
      if depth < 0 {
        depth := 0;
      }
    }
    return false;
  }

  method HasForeignStreamBlock(main: string, k: Block) returns (found: bool)
    requires k.Proper()
    ensures found <==> ForeignStreamBlock(main, k)
  {
    found := OpensBlock(Split(StripInclude(main, k), '\n'));
  }

  /** The text with the block put after it. */
  function Appended(main: string, k: Block): string {
    TrimNewlines(main) + ("\n" + "\n") + k.Rendered()
  }

  /** None when another stream block is in the way. */
  function WithStreamInclude(main: string, k: Block): Option<string>
    requires k.Proper()
  {
    if HasBlock(main, k) then Some(ReplaceAll(main, k, "\n" + k.Rendered()))
    else if ForeignStreamBlock(main, k) then None
    else Some(Appended(main, k))
  }

  // ---- finding ----

  ghost predicate Lacks(s: string, pattern: string) {
    forall i :: 0 <= i <= |s| ==> !(pattern <= s[i..])
  }

  lemma {:induction false} CutIsFirst(s: string, pattern: string)
    requires pattern != ""
    ensures CutAt(s, pattern).None? ==> Lacks(s, pattern)
    ensures CutAt(s, pattern).Some? ==> Lacks(CutAt(s, pattern).value.0, pattern)
  {
    if pattern <= s {
    } else if s == "" {
    } else {
      CutIsFirst(s[1..], pattern);
      match CutAt(s[1..], pattern)
      case None =>
        LacksOneMore(s[0], s[1..], pattern, s);
        assert [s[0]] + s[1..] == s;
      case Some((x, _)) => LacksOneMore(s[0], x, pattern, s);
    }
  }

  lemma LacksOneMore(c: char, x: string, pattern: string, s: string)
    requires [c] + x <= s && !(pattern <= s) && Lacks(x, pattern)
    ensures Lacks([c] + x, pattern)
  {
    forall i | 0 <= i <= |[c] + x| ensures !(pattern <= ([c] + x)[i..]) {
      if i == 0 {
        assert ([c] + x)[0..] == [c] + x;
      } else {
        assert ([c] + x)[i..] == x[i - 1..];
      }
    }
  }

  /** A marker is found where it stands if the text before lacks it. */
  lemma {:induction false} CutIs(x: string, y: string, m: string)
    requires Marker(m) && Lacks(x, m)
    ensures CutAt(x + m + y, m) == Some((x, y))
  {
    var s := x + m + y;
    if x == "" {
      assert s == m + y;
    } else {
      assert !(m <= s) by {
        assert x[0..] == x && s[..|x|] == x && s[|x|] == '#';
        if |x| < |m| {
          assert m[|x|] == m[1..][|x| - 1] && m[1..][|x| - 1] in m[1..];
        }
      }
      assert s[1..] == x[1..] + m + y;
      assert Lacks(x[1..], m) by {
        forall i | 0 <= i <= |x[1..]| ensures x[1..][i..] == x[i + 1..] {
        }
      }
      CutIs(x[1..], y, m);
      assert x == [s[0]] + x[1..];
    }
  }

  lemma LacksPart(p: string, q: string, m: string)
    requires m != "" && Lacks(p + q, m)
    ensures Lacks(p, m) && Lacks(q, m)
  {
    forall i | 0 <= i <= |p| ensures !(m <= p[i..]) {
      assert p[i..] <= (p + q)[i..];
    }
    forall i | 0 <= i <= |q| ensures !(m <= q[i..]) {
      assert q[i..] == (p + q)[|p| + i..];
    }
  }

  lemma LacksJoinAt(p: string, q: string, m: string, i: nat)
    requires Marker(m) && Lacks(p, m) && Lacks(q, m) && i <= |p| + 1 + |q|
    ensures !(m <= (p + "\n" + q)[i..])
  {
    var s := p + "\n" + q;
    if i > |p| {
      assert s[i..] == q[i - |p| - 1..];
    } else if i + |m| <= |p| {
      var pre := p[i..][..|m|];
      assert s[i..][..|m|] == pre && m != pre;
    } else {
      assert s[i..][|p| - i] == '\n';
      assert m[|p| - i] in m;
    }
  }

  /** A marker cannot run over a line break. */
  lemma LacksJoin(p: string, q: string, m: string)
    requires Marker(m) && Lacks(p, m) && Lacks(q, m)
    ensures Lacks(p + "\n" + q, m)
  {
    forall i | 0 <= i <= |p + "\n" + q| ensures !(m <= (p + "\n" + q)[i..]) {
      LacksJoinAt(p, q, m, i);
    }
  }

  lemma LacksPlain(x: string, m: string)
    requires Marker(m) && '#' !in x
    ensures Lacks(x, m)
  {
    forall i | 0 <= i <= |x| ensures !(m <= x[i..]) {
      if i < |x| {
        assert x[i..][0] == x[i] && x[i] in x;
      }
    }
  }

  /** How a match is recognised, and what every match looks like. */
  lemma MatchIs(x: string, u: string, v: string, k: Block)
    requires k.Proper() && Lacks(x, k.begin) && Lacks(u, k.end)
    ensures FirstMatch(x + k.begin + (u + k.end + v), k) == Some((WithoutBreakAfter(x), WithoutBreakBefore(v)))
  {
    CutIs(x, u + k.end + v, k.begin);
    CutIs(u, v, k.end);
  }

  lemma BeforeMatch(s: string, k: Block)
    requires k.Proper() && FirstMatch(s, k).Some?
    ensures Lacks(FirstMatch(s, k).value.0, k.begin)
  {
    CutIsFirst(s, k.begin);
    var x := CutAt(s, k.begin).value.0;
    var p := WithoutBreakAfter(x);
    assert x == p + x[|p|..];
    LacksPart(p, x[|p|..], k.begin);
  }

  lemma Assoc(a: string, b: string, c: string)
    ensures a + b + c == a + (b + c)
  {
  }

  /** Two ways to bracket a text around a rendered block. */
  lemma Rebracket(p: string, n: string, b: string, body: string, e: string, rest: string)
    ensures p + (n + (b + n + body + n + e + n)) + rest == p + n + b + (n + body + n + e + (n + rest))
  {
    var u := n + body + n + e;
    Assoc(b, n, body);
    Assoc(b, n + body, n);
    Assoc(b, n + body + n, e);
    Assoc(b, u, n);
    assert b + n + body + n + e + n == b + (u + n);
    Assoc(n, b, u + n);
    Assoc(p, n + b + (u + n), rest);
    Assoc(n + b, u + n, rest);
    Assoc(u, n, rest);
    Assoc(p, n + b, u + (n + rest));
    Assoc(p, n, b);
  }

  /** A rendered block is matched whole, with the line break before it, wherever it stands first. */
  lemma RenderedMatch(p: string, rest: string, k: Block)
    requires k.Proper() && Lacks(p, k.begin)
    ensures FirstMatch(p + ("\n" + k.Rendered()) + rest, k) == Some((p, rest))
  {
    var n := "\n";
    var x, u, v := p + n, n + k.body + n, n + rest;
    BreakKeepsLack(p, k.begin);
    assert Lacks(u, k.end) by {
      assert '#' !in u;
      LacksPlain(u, k.end);
    }
    MatchIs(x, u, v, k);
    Rebracket(p, n, k.begin, k.body, k.end, rest);
    BreaksTaken(p, rest);
  }

  lemma BreaksTaken(p: string, rest: string)
    ensures WithoutBreakAfter(p + "\n") == p && WithoutBreakBefore("\n" + rest) == rest
  {
  }

  // ---- replacing ----

  /** Replacing blocks by our rendering first makes no difference to what replacing them makes of the text. */
  lemma {:induction false} ReplaceTwice(s: string, k: Block, by_: string)
    requires k.Proper()
    ensures ReplaceAll(ReplaceAll(s, k, "\n" + k.Rendered()), k, by_) == ReplaceAll(s, k, by_)
    ensures Blocks(ReplaceAll(s, k, "\n" + k.Rendered()), k) == Blocks(s, k)
    decreases |s|
  {
    if FirstMatch(s, k).Some? {
      var (before, after) := FirstMatch(s, k).value;
      var own := "\n" + k.Rendered();
      ReplaceTwice(after, k, by_);
      BeforeMatch(s, k);
      RenderedMatch(before, ReplaceAll(after, k, own), k);
    }
  }

  lemma Regroup(a: string, x: string, b: string, y: string)
    ensures a + (x + b + y) == a + x + b + y
  {
  }

  lemma NoMatchAfter(p: string, r: string, k: Block)
    requires k.Proper() && Lacks(p, k.begin) && !HasBlock(r, k)
    ensures !HasBlock(p + "\n" + r, k)
  {
    CutIsFirst(r, k.begin);
    match CutAt(r, k.begin) {
      case None =>
        LacksJoin(p, r, k.begin);
        NoCut(p + "\n" + r, k.begin);
      case Some((x, y)) =>
        LacksJoin(p, x, k.begin);
        CutIs(p + "\n" + x, y, k.begin);
        Regroup(p + "\n", x, k.begin, y);
    }
  }

  lemma {:induction false} NoCut(s: string, m: string)
    requires m != "" && Lacks(s, m)
    ensures CutAt(s, m).None?
  {
    assert s[0..] == s;
    if s != "" {
      assert s == [s[0]] + s[1..];
      LacksPart([s[0]], s[1..], m);
      NoCut(s[1..], m);
    }
  }

  /** Whatever nginx.conf holds, stripping leaves no block to match. */
  lemma {:induction false} StripLeavesNoBlock(s: string, k: Block)
    requires k.Proper()
    ensures !HasBlock(StripInclude(s, k), k)
    decreases |s|
  {
    if FirstMatch(s, k).Some? {
      var (before, after) := FirstMatch(s, k).value;
      StripLeavesNoBlock(after, k);
      BeforeMatch(s, k);
      NoMatchAfter(before, StripInclude(after, k), k);
    }
  }

  // ---- adding ----

  lemma {:induction false} TrimmedPrefix(s: string)
    ensures TrimNewlines(s) <= s
    ensures TrimNewlines(s + "\n") == TrimNewlines(s)
    ensures TrimNewlines(TrimNewlines(s)) == TrimNewlines(s)
  {
    assert (s + "\n")[..|s|] == s;
    if s != "" && s[|s| - 1] == '\n' {
      TrimmedPrefix(s[..|s| - 1]);
    }
  }

  lemma {:induction false} TrimSuffix(z: string, y: string)
    requires z != "" && z[|z| - 1] != '\n'
    ensures TrimNewlines(z + y) == z + TrimNewlines(y)
  {
    if y == "" {
      assert z + y == z;
    } else if y[|y| - 1] == '\n' {
      assert (z + y)[..|z + y| - 1] == z + y[..|y| - 1];
      TrimSuffix(z, y[..|y| - 1]);
    }
  }

  lemma NothingAfter(s: string)
    ensures s + "" == s
  {
  }

  lemma BreakKeepsLack(t: string, m: string)
    requires Marker(m) && Lacks(t, m)
    ensures Lacks(t + "\n", m)
  {
    LacksPlain("", m);
    LacksJoin(t, "", m);
    NothingAfter(t + "\n");
  }

  lemma TrimKeepsLack(s: string, m: string)
    requires m != "" && Lacks(s, m)
    ensures Lacks(TrimNewlines(s), m)
  {
    TrimmedPrefix(s);
    var t := TrimNewlines(s);
    assert s == t + s[|t|..];
    LacksPart(t, s[|t|..], m);
  }

  lemma AppendedMatch(main: string, k: Block)
    requires k.Proper() && Lacks(main, k.begin)
    ensures FirstMatch(Appended(main, k), k) == Some((TrimNewlines(main) + "\n", ""))
  {
    var t, n, r := TrimNewlines(main), "\n", k.Rendered();
    TrimKeepsLack(main, k.begin);
    BreakKeepsLack(t, k.begin);
    RenderedMatch(t + n, "", k);
    AppendedIs(t, n, r);
    NothingAfter(t + n + (n + r));
  }

  lemma AppendedIs(t: string, n: string, r: string)
    ensures t + (n + n) + r == t + n + (n + r)
  {
    Assoc(t, n, n);
    Assoc(t + n, n, r);
  }

  /** Between a stray begin marker and our end marker. */
  function Swallowed(y: string, k: Block): string {
    y + "\n" + ("\n" + (k.begin + "\n" + (k.body + "\n")))
  }

  lemma SwallowedLacksEnd(y: string, k: Block)
    requires k.Proper() && Lacks(y, k.end)
    ensures Lacks(Swallowed(y, k), k.end)
  {
    var own := k.begin + "\n" + (k.body + "\n");
    LacksPlain(k.body + "\n", k.end);
    assert Lacks(k.begin, k.end) by {
      assert k.begin[0..] == k.begin;
      forall i | 0 < i <= |k.begin| ensures !(k.end <= k.begin[i..]) {
        assert i < |k.begin| ==> k.begin[i..][0] == k.begin[1..][i - 1] && k.begin[1..][i - 1] in k.begin[1..];
      }
    }
    LacksJoin(k.begin, k.body + "\n", k.end);
    LacksPlain("", k.end);
    LacksJoin("", own, k.end);
    assert "" + "\n" + own == "\n" + own;
    LacksJoin(y, "\n" + own, k.end);
  }

  lemma StrayIs(z: string, y: string, n: string, b: string, body: string, e: string)
    ensures z + y + (n + n) + (b + n + body + n + e + n) == z + (y + n + (n + (b + n + (body + n))) + e + n)
  {
    var own := b + n + (body + n);
    Assoc(b + n, body, n);
    assert b + n + body + n + e + n == own + e + n;
    Assoc(own, e, n);
    var en := e + n;
    Assoc(z, y, n + n);
    Assoc(z, y + (n + n), own + en);
    Assoc(y, n, n);
    Assoc(y + n, n, own + en);
    Assoc(n, own, en);
    Assoc(y + n, n + own, en);
    Assoc(y + n + (n + own), e, n);
  }

  /** After a stray begin marker, the appended block's end closes the stray one: the match swallows text of others. */
  lemma StrayMatch(main: string, k: Block)
    requires k.Proper() && !HasBlock(main, k) && CutAt(main, k.begin).Some?
    ensures FirstMatch(Appended(main, k), k) == Some((WithoutBreakAfter(CutAt(main, k.begin).value.0), ""))
    ensures |CutAt(main, k.begin).value.0| < |TrimNewlines(main)|
  {
    CutIsFirst(main, k.begin);
    var (x, y) := CutAt(main, k.begin).value;
    var y0 := TrimNewlines(y);
    assert TrimNewlines(main) == x + k.begin + y0 by {
      assert k.begin[|k.begin| - 1] in k.begin;
      TrimSuffix(x + k.begin, y);
    }
    CutIsFirst(y, k.end);
    TrimKeepsLack(y, k.end);
    SwallowedLacksEnd(y0, k);
    MatchIs(x, Swallowed(y0, k), "\n", k);
    StrayIs(x + k.begin, y0, "\n", k.begin, k.body, k.end);
    assert WithoutBreakBefore("\n") == "";
  }

  // ---- what it comes to ----

  /** The operator's text has a begin marker that no end marker closes. */
  predicate StrayBegin(main: string, k: Block)
    requires k.Proper()
  {
    !HasBlock(main, k) && CutAt(main, k.begin).Some?
  }

  /**
   Adding the block to a text that has it already gives the same text back, unless the operator's text had a begin
   marker without its end; then it never does.
   */
  lemma AddingTwiceIsOnce(main: string, k: Block)
    requires k.Proper() && WithStreamInclude(main, k).Some?
    ensures WithStreamInclude(WithStreamInclude(main, k).value, k) == WithStreamInclude(main, k) <==> !StrayBegin(main, k)
  {
    var own := "\n" + k.Rendered();
    var added := WithStreamInclude(main, k).value;
    if HasBlock(main, k) {
      ReplaceTwice(main, k, own);
      var (before, after) := FirstMatch(main, k).value;
      BeforeMatch(main, k);
      RenderedMatch(before, ReplaceAll(after, k, own), k);
    } else if StrayBegin(main, k) {
      StrayMatch(main, k);
      var x := CutAt(main, k.begin).value.0;
      assert ReplaceAll("", k, own) == "";
      assert ReplaceAll(added, k, own) == WithoutBreakAfter(x) + own + "";
      assert |ReplaceAll(added, k, own)| < |added|;
    } else {
      CutIsFirst(main, k.begin);
      AppendedMatch(main, k);
      assert ReplaceAll("", k, own) == "";
      assert TrimNewlines(main) + "\n" + own + "" == added;
    }
  }

  /** It leaves as many blocks as there were, and one where there was none. */
  lemma AddingLeavesOneBlock(main: string, k: Block)
    requires k.Proper() && WithStreamInclude(main, k).Some?
    ensures Blocks(WithStreamInclude(main, k).value, k) == if Blocks(main, k) == 0 then 1 else Blocks(main, k)
  {
    if HasBlock(main, k) {
      ReplaceTwice(main, k, "");
    } else {
      assert Blocks("", k) == 0;
      if StrayBegin(main, k) {
        StrayMatch(main, k);
      } else {
        CutIsFirst(main, k.begin);
        AppendedMatch(main, k);
      }
    }
  }

  /**
   Stripping what was added gives nginx.conf back: exactly as stripping it unchanged would where it had blocks, and up
   to line breaks at the end where it had none and no stray begin marker. With one, text of the operator's is lost.
   */
  lemma StrippingUndoesAdding(main: string, k: Block)
    requires k.Proper() && WithStreamInclude(main, k).Some?
    ensures var back := StripInclude(WithStreamInclude(main, k).value, k);
            if HasBlock(main, k) then back == StripInclude(main, k)
            else TrimNewlines(back) == TrimNewlines(main) <==> !StrayBegin(main, k)
  {
    var added := WithStreamInclude(main, k).value;
    if HasBlock(main, k) {
      ReplaceTwice(main, k, "\n");
    } else if StrayBegin(main, k) {
      StrayMatch(main, k);
      var p := WithoutBreakAfter(CutAt(main, k.begin).value.0);
      assert StripInclude("", k) == "";
      assert StripInclude(added, k) == p + "\n" + "" == p + "\n";
      TrimmedPrefix(p);
      assert |TrimNewlines(p + "\n")| <= |p|;
    } else {
      CutIsFirst(main, k.begin);
      AppendedMatch(main, k);
      var t := TrimNewlines(main);
      assert StripInclude("", k) == "";
      assert StripInclude(added, k) == t + "\n" + "\n" + "" == t + "\n" + "\n";
      TrimmedPrefix(t + "\n");
      TrimmedPrefix(t);
      TrimmedPrefix(main);
    }
  }
}
