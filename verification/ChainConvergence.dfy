/** A registry that stands still is caught up with: one poll of every box, from the innermost out, brings all to its revision. */
module ChainConvergence {
  import opened Prelude
  import opened ChainDocument
  import opened Truncation
  import opened ChainWave
  import opened ChainDrain

  /** The registry lists every box, outward of the one it polls, and nobody polls an edge. */
  ghost predicate ListsAll(c: Chain, content: Content)
    requires ValidChain(c)
  {
    forall b :: 0 <= b < |c.source| ==>
      && EntryOf(content.hops, c.secret[b]).Some?
      && (c.source[b].Inner? ==> Outward(c, content, c.source[b].box, b))
  }

  ghost predicate Outward(c: Chain, content: Content, p: nat, b: nat)
    requires p < |c.source| && b < |c.source| && |c.secret| == |c.source|
  {
    && EntryOf(content.hops, c.secret[p]).Some? && EntryOf(content.hops, c.secret[b]).Some?
    && EntryOf(content.hops, c.secret[p]).value < EntryOf(content.hops, c.secret[b]).value
    && content.hops[EntryOf(content.hops, c.secret[p]).value].role != ROLE_EDGE
  }

  /** A box that holds the registry's list from its own entry on serves whoever is listed further out. */
  lemma ListedIsServed(content: Content, doc: Document, kp: nat, k: nat, secret: string)
    requires UniqueNames(content.hops) && kp < k < |content.hops| && secret != ""
    requires doc.hops == content.hops[kp..] && doc.self.name == content.hops[kp].name
    requires content.hops[k].secretHash == Sha256(secret)
    ensures OuterNeighbour(Some(doc), secret).Some?
  {
    assert doc.hops[k - kp] == content.hops[k];
    assert content.hops[k] in doc.hops;
  }

  /** Every listed box has a document at that revision. */
  lemma {:induction false} ListedHasDocument(c: Chain, history: seq<Content>, b: nat)
    requires ValidChain(c) && b < |c.source| && history != []
    requires ValidContent(history[|history| - 1]) && ListsAll(c, history[|history| - 1])
    ensures DocumentAt(c, history, b, |history|).Some?
    decreases b
  {
    var r, content := |history|, history[|history| - 1];
    if c.source[b].Inner? {
      var p := c.source[b].box;
      ListedHasDocument(c, history, p);
      DocumentAtIsTheRegistrys(c, history, p, r);
      var inner := DocumentAt(c, history, p, r).value;
      assert Outward(c, content, p, b);
      var kp, k := EntryOf(content.hops, c.secret[p]).value, EntryOf(content.hops, c.secret[b]).value;
      assert inner.hops == Bare(inner).hops == content.hops[kp..];
      assert inner.self.name == Bare(inner).self.name == content.hops[kp].name;
      ListedIsServed(content, inner, kp, k, c.secret[b]);
    }
  }

  /** What box b polls is at the registry's revision. */
  ghost predicate SourceIsCurrent(c: Chain, w: World, b: nat)
    requires ValidChain(c) && |w.boxes| == |c.source| && b < |w.boxes|
  {
    c.source[b].Inner? ==>
      w.boxes[c.source[b].box].doc.Some? && w.boxes[c.source[b].box].doc.value.revision == |w.history|
  }

  ghost predicate Still(c: Chain, w: World) {
    Sound(c, w) && w.history != [] && ListsAll(c, w.history[|w.history| - 1])
  }

  /** A poll of a current source is answered: with its document, or with word that the box has it already. */
  lemma CurrentSourceAnswers(c: Chain, w: World, b: nat, generatedAt: int)
    requires Still(c, w) && b < |c.source| && SourceIsCurrent(c, w, b)
    ensures var a := AnswerTo(c, w, b, generatedAt);
      && (a.NotModified? ==> w.boxes[b].doc.Some? && w.boxes[b].doc.value.revision == |w.history|)
      && (a.Fetched? ==> a.doc.revision == |w.history| && Revision(w.boxes[b].doc) != |w.history|)
      && !a.NotFound?
  {
    AnswerIsGenuine(c, w, b, generatedAt);
    ListedHasDocument(c, w.history, b);
    if c.source[b].Inner? {
      var p := c.source[b].box;
      assert BoxSound(c, w, p);
      var doc := w.boxes[p].doc.value;
      assert DocumentAt(c, w.history, p, |w.history|) == Some(Unstamped(doc));
      assert OuterNeighbour(Some(doc), c.secret[b]) == OuterNeighbour(Some(Unstamped(doc)), c.secret[b]);
    }
  }

  /** One undisturbed poll: a request under way is given up, a new one is answered, the answer arrives and is saved or not. */
  function PollOf(b: nat, saved: bool): seq<Step> {
    [Lose(b), Ask(b, 0), Deliver(b, saved)]
  }

  /** Box b holds the registry's revision. */
  ghost predicate Current(w: World, b: nat) {
    b < |w.boxes| && w.boxes[b].doc.Some? && w.boxes[b].doc.value.revision == |w.history|
  }

  /** Nothing but box b is different. */
  ghost predicate OnlyBox(w: World, n: World, b: nat) {
    && n.history == w.history && |n.boxes| == |w.boxes|
    && forall a :: 0 <= a < |w.boxes| && a != b ==> n.boxes[a] == w.boxes[a]
  }

  lemma AnswerBringsUp(c: Chain, w: World, b: nat, saved: bool)
    requires Still(c, w) && b < |c.source| && SourceIsCurrent(c, w, b) && w.boxes[b].pending.None?
    ensures var n := After(c, After(c, w, Ask(b, 0)), Deliver(b, saved)); OnlyBox(w, n, b) && Current(n, b)
  {
    CurrentSourceAnswers(c, w, b, 0);
  }

  lemma PollBringsUp(c: Chain, run: seq<World>, steps: seq<Step>, b: nat, saved: bool) returns (longer: seq<World>)
    requires IsRun(c, run, steps) && b < |c.source|
    requires Still(c, run[|steps|]) && SourceIsCurrent(c, run[|steps|], b)
    ensures IsRun(c, longer, steps + PollOf(b, saved))
    ensures Still(c, longer[|steps| + 3])
    ensures OnlyBox(run[|steps|], longer[|steps| + 3], b) && Current(longer[|steps| + 3], b)
  {
    var w := run[|steps|];
    var w1 := After(c, w, Lose(b));
    StepKeepsSound(c, w, Lose(b));
    AnswerBringsUp(c, w1, b, saved);
    var w2 := After(c, w1, Ask(b, 0));
    StepKeepsSound(c, w1, Ask(b, 0));
    var w3 := After(c, w2, Deliver(b, saved));
    StepKeepsSound(c, w2, Deliver(b, saved));
    longer := run + [w1] + [w2] + [w3];
    ThreeMore(c, run, steps, Lose(b), Ask(b, 0), Deliver(b, saved), w1, w2, w3);
  }

  function PollsUpTo(n: nat, saves: nat -> bool): seq<Step> {
    if n == 0 then [] else PollsUpTo(n - 1, saves) + PollOf(n - 1, saves(n - 1))
  }

  ghost predicate CurrentUpTo(w: World, n: nat) {
    forall b :: 0 <= b < n ==> Current(w, b)
  }

  lemma OneMoreIsCurrent(w: World, n: World, b: nat)
    requires CurrentUpTo(w, b) && OnlyBox(w, n, b) && Current(n, b)
    ensures CurrentUpTo(n, b + 1)
  {
    forall a | 0 <= a < b ensures Current(n, a) {
      assert Current(w, a) && n.boxes[a] == w.boxes[a];
    }
  }

  lemma PollsAddUp(steps: seq<Step>, n: nat, saves: nat -> bool)
    ensures steps + PollsUpTo(n, saves) + PollOf(n, saves(n)) == steps + PollsUpTo(n + 1, saves)
  {
  }

  /** The registry lists every box, and the first n of them hold its revision. */
  ghost predicate BroughtUp(c: Chain, run: seq<World>, steps: seq<Step>, n: nat) {
    IsRun(c, run, steps) && Still(c, run[|steps|]) && CurrentUpTo(run[|steps|], n)
  }

  lemma OneMorePoll(c: Chain, run: seq<World>, steps: seq<Step>, b: nat, saved: bool)
    returns (longer: seq<World>, more: seq<Step>)
    requires BroughtUp(c, run, steps, b) && b < |c.source|
    ensures BroughtUp(c, longer, more, b + 1) && more == steps + PollOf(b, saved)
  {
    more := steps + PollOf(b, saved);
    assert c.source[b].Inner? ==> Current(run[|steps|], c.source[b].box);
    longer := PollBringsUp(c, run, steps, b, saved);
    OneMoreIsCurrent(run[|steps|], longer[|steps| + 3], b);
  }

  lemma {:induction false} PollsBringUp(c: Chain, run: seq<World>, steps: seq<Step>, n: nat, saves: nat -> bool)
    returns (longer: seq<World>, more: seq<Step>)
    requires BroughtUp(c, run, steps, 0) && n <= |c.source|
    ensures BroughtUp(c, longer, more, n) && more == steps + PollsUpTo(n, saves)
    decreases n
  {
    if n == 0 {
      longer, more := run, steps;
    } else {
      var before, done := PollsBringUp(c, run, steps, n - 1, saves);
      longer, more := OneMorePoll(c, before, done, n - 1, saves(n - 1));
      PollsAddUp(steps, n - 1, saves);
    }
  }

  /** The steps determine the run. */
  lemma {:induction false} StepsDetermineRun(c: Chain, a: seq<World>, b: seq<World>, s: seq<Step>, t: seq<Step>, i: nat)
    requires IsRun(c, a, s) && IsRun(c, b, s + t) && i <= |s|
    ensures a[i] == b[i]
  {
    if i > 0 {
      StepsDetermineRun(c, a, b, s, t, i - 1);
      assert s[i - 1] == (s + t)[i - 1];
      assert a[i - 1 + 1] == After(c, a[i - 1], s[i - 1]) && b[i - 1 + 1] == After(c, b[i - 1], (s + t)[i - 1]);
    }
  }

  lemma {:induction false} PollsAreNoBumps(c: Chain, run: seq<World>, steps: seq<Step>, n: nat, saves: nat -> bool, i: nat)
    requires IsRun(c, run, steps + PollsUpTo(n, saves)) && i <= |PollsUpTo(n, saves)|
    ensures run[|steps| + i].history == run[|steps|].history
  {
    if i > 0 {
      PollsAreNoBumps(c, run, steps, n, saves, i - 1);
      NoBumpAmongPolls(n, saves, i - 1);
      assert (steps + PollsUpTo(n, saves))[|steps| + i - 1] == PollsUpTo(n, saves)[i - 1];
      assert run[|steps| + i - 1 + 1] == After(c, run[|steps| + i - 1], PollsUpTo(n, saves)[i - 1]);
    }
  }

  lemma {:induction false} NoBumpAmongPolls(n: nat, saves: nat -> bool, i: nat)
    requires i < |PollsUpTo(n, saves)|
    ensures !PollsUpTo(n, saves)[i].Bump?
  {
    if i < |PollsUpTo(n - 1, saves)| {
      NoBumpAmongPolls(n - 1, saves, i);
    }
  }

  /**
   From any reachable world, lost saves and restarts behind it: once the registry stands still and lists every box,
   polling each box once, from the innermost out, its save going through or not, leaves all of them with a document of
   the registry's revision, as the results on relay paths ask.
   */
  lemma OnePollEachSyncs(c: Chain, run: seq<World>, steps: seq<Step>, saves: nat -> bool) returns (longer: seq<World>)
    requires IsRun(c, run, steps)
    requires run[|steps|].history != [] && ListsAll(c, run[|steps|].history[|run[|steps|].history| - 1])
    ensures IsRun(c, longer, steps + PollsUpTo(|c.source|, saves)) && run <= longer
    ensures var w := longer[|longer| - 1]; w.history == run[|steps|].history && Sound(c, w) && Synced(w, |w.history|)
  {
    RunKeepsSound(c, run, steps, |steps|);
    var n := |c.source|;
    var more;
    longer, more := PollsBringUp(c, run, steps, n, saves);
    forall i | 0 <= i <= |steps| ensures run[i] == longer[i] {
      StepsDetermineRun(c, run, longer, steps, PollsUpTo(n, saves), i);
    }
    PollsAreNoBumps(c, longer, steps, n, saves, |PollsUpTo(n, saves)|);
    var w := longer[|longer| - 1];
    forall b | 0 <= b < |w.boxes| ensures w.boxes[b].doc.Some? && w.boxes[b].doc.value.revision == |w.history| {
      assert Current(w, b);
    }
  }
}
