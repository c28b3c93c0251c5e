/**
 The wave: every box polls its inner neighbour with the revision it holds, keeps what it receives in memory and in a
 file, and answers its own outer neighbours from it. A transition system over a fixed chain, in which polls overlap,
 answers get lost or arrive late, and boxes restart from their files at any time.
 */
module ChainWave {
  import opened Prelude
  import opened ChainDocument
  import opened Truncation
  import opened DocumentDiff

  /** Whom a box polls: the panel, or a box further in. */
  datatype Source = Panel | Inner(box: nat)

  /** What does not change in a run: who polls whom, each box's hop secret and its proxy.json. */
  datatype Chain = Chain(source: seq<Source>, secret: seq<string>, cfg: seq<Config>)

  ghost predicate ValidChain(c: Chain) {
    && |c.secret| == |c.cfg| == |c.source|
    && forall b :: 0 <= b < |c.source| ==> c.secret[b] != "" && (c.source[b].Inner? ==> c.source[b].box < b)
  }

  /** What the registry holds at one revision: the hops from the innermost out, edges last, and what all share. */
  datatype Content = Content(hops: seq<Hop>, ports: seq<Port>, activeEdge: string, panel: NextHop)

  ghost predicate ValidContent(c: Content) {
    UniqueNames(c.hops) && UniqueSecrets(c.hops)
  }

  /** The registry's own document for the k-th hop: that hop and what is outward of it. */
  function RegistryDocument(c: Content, revision: int, generatedAt: int, k: nat): Document
    requires k < |c.hops|
  {
    var h := c.hops[k];
    var edge := h.role == ROLE_EDGE;
    Document(DOCUMENT_VERSION, revision, generatedAt,
             Self(h.name, h.role, h.host, h.state, h.realityTarget, h.realityServerName), c.panel,
             if !edge || c.activeEdge == h.name then c.activeEdge else "",
             if edge then [h] else c.hops[k..], c.ports)
  }

  /** Where the registry lists the holder of a secret. */
  function EntryOf(hops: seq<Hop>, secret: string): (r: Option<nat>)
    ensures r.Some? ==> r.value < |hops| && hops[r.value].secretHash == Sha256(secret)
    ensures r.None? ==> forall h :: h in hops ==> h.secretHash != Sha256(secret)
  {
    if hops == [] then None
    else if hops[0].secretHash == Sha256(secret) then Some(0)
    else match EntryOf(hops[1..], secret) case None => None case Some(k) => Some(k + 1)
  }

  datatype Answer = NotFound | NotModified | Fetched(doc: Document)

  datatype Box = Box(doc: Option<Document>, file: Option<Document>, pending: Option<Answer>)

  /** `history[r - 1]` is what the registry held at revision r. */
  datatype World = World(history: seq<Content>, boxes: seq<Box>)

  function Revision(doc: Option<Document>): int {
    if doc.None? then 0 else doc.value.revision
  }

  /** What box b's source answers to a poll, given the revision in If-None-Match (0: no header). */
  function AnswerTo(c: Chain, w: World, b: nat, generatedAt: int): Answer
    requires ValidChain(c) && |w.boxes| == |c.source| && b < |w.boxes|
  {
    var known := Revision(w.boxes[b].doc);
    match c.source[b]
    case Panel =>
      if w.history == [] then NotFound
      else
        (match EntryOf(w.history[|w.history| - 1].hops, c.secret[b])
         case None => NotFound
         case Some(k) =>
           if known == |w.history| then NotModified
           else Fetched(RegistryDocument(w.history[|w.history| - 1], |w.history|, generatedAt, k)))
    case Inner(p) =>
      match OuterNeighbour(w.boxes[p].doc, c.secret[b])
      case None => NotFound
      case Some(hop) =>
        if known > 0 && known == w.boxes[p].doc.value.revision then NotModified
        else Fetched(Truncate(w.boxes[p].doc.value, hop, c.cfg[p]))
  }

  datatype Step =
    | Bump(content: Content)             // the owner changes the registry
    | Ask(box: nat, generatedAt: int)    // a poll reaches its source, which answers
    | Deliver(box: nat, saved: bool)     // the answer arrives; `saved`: the file could be written
    | Lose(box: nat)                     // the poll times out or its answer is unreadable
    | Restart(box: nat)                  // the box starts over from its file

  ghost predicate Enabled(c: Chain, w: World, s: Step) {
    match s
    case Bump(content) => ValidContent(content)
    case Ask(b, _) => b < |w.boxes| && w.boxes[b].pending.None?
    case Deliver(b, _) => b < |w.boxes| && w.boxes[b].pending.Some?
    case Lose(b) => b < |w.boxes|
    case Restart(b) => b < |w.boxes|
  }

  function Received(box: Box, saved: bool): Box
    requires box.pending.Some?
  {
    match box.pending.value
    case Fetched(doc) =>
      if Replaces(box.doc, doc) then Box(Some(doc), if saved then Some(doc) else box.file, None)
      else box.(pending := None)
    case _ => box.(pending := None)
  }

  ghost function After(c: Chain, w: World, s: Step): World
    requires ValidChain(c) && |w.boxes| == |c.source| && Enabled(c, w, s)
  {
    match s
    case Bump(content) => w.(history := w.history + [content])
    case Ask(b, t) => w.(boxes := w.boxes[b := w.boxes[b].(pending := Some(AnswerTo(c, w, b, t)))])
    case Deliver(b, saved) => w.(boxes := w.boxes[b := Received(w.boxes[b], saved)])
    case Lose(b) => w.(boxes := w.boxes[b := w.boxes[b].(pending := None)])
    case Restart(b) => w.(boxes := w.boxes[b := Box(w.boxes[b].file, w.boxes[b].file, None)])
  }

  /** No registry revision yet and every box empty. */
  ghost predicate Initial(c: Chain, w: World) {
    w.history == [] && |w.boxes| == |c.source| && forall b :: 0 <= b < |w.boxes| ==> w.boxes[b] == Box(None, None, None)
  }

  /** `run` is the sequence of worlds that `steps` produces. */
  ghost predicate IsRun(c: Chain, run: seq<World>, steps: seq<Step>) {
    && ValidChain(c) && |run| == |steps| + 1 && Initial(c, run[0])
    && forall i :: 0 <= i < |steps| ==>
         |run[i].boxes| == |c.source| && Enabled(c, run[i], steps[i]) && run[i + 1] == After(c, run[i], steps[i])
  }

  ghost predicate SavesSucceed(steps: seq<Step>) {
    forall i :: 0 <= i < |steps| && steps[i].Deliver? ==> steps[i].saved
  }

  // ---- what a box's document at a revision must be ----

  function Unstamped(doc: Document): Document {
    doc.(generatedAt := 0)
  }

  /** The one document box b can hold at revision r: the registry's, cut at every box on the way. */
  function DocumentAt(c: Chain, history: seq<Content>, b: nat, r: int): Option<Document>
    requires ValidChain(c) && b < |c.source| && 1 <= r <= |history|
    decreases b
  {
    match c.source[b]
    case Panel =>
      (match EntryOf(history[r - 1].hops, c.secret[b])
       case None => None
       case Some(k) => Some(RegistryDocument(history[r - 1], r, 0, k)))
    case Inner(p) =>
      var inner := DocumentAt(c, history, p, r);
      match OuterNeighbour(inner, c.secret[b])
      case None => None
      case Some(hop) => Some(Truncate(inner.value, hop, c.cfg[p]))
  }

  ghost predicate Genuine(c: Chain, history: seq<Content>, b: nat, doc: Option<Document>)
    requires ValidChain(c) && b < |c.source|
  {
    doc.Some? ==>
      && 1 <= doc.value.revision <= |history|
      && DocumentAt(c, history, b, doc.value.revision) == Some(Unstamped(doc.value))
  }

  ghost function SourceRevision(c: Chain, w: World, b: nat): int
    requires ValidChain(c) && |w.boxes| == |c.source| && b < |w.boxes|
  {
    if c.source[b].Panel? then |w.history| else Revision(w.boxes[c.source[b].box].doc)
  }

  /** Whatever a box holds, keeps in its file or is about to receive is genuine. */
  ghost predicate BoxSound(c: Chain, w: World, b: nat)
    requires ValidChain(c) && |w.boxes| == |c.source| && b < |w.boxes|
  {
    var box := w.boxes[b];
    && Genuine(c, w.history, b, box.doc)
    && Genuine(c, w.history, b, box.file)
    && (box.pending.Some? && box.pending.value.Fetched? ==> Genuine(c, w.history, b, Some(box.pending.value.doc)))
  }

  /** What every run keeps, whether or not the files can be written. */
  ghost predicate Sound(c: Chain, w: World) {
    && ValidChain(c) && |w.boxes| == |c.source|
    && (forall r :: 0 <= r < |w.history| ==> ValidContent(w.history[r]))
    && forall b :: 0 <= b < |w.boxes| ==> BoxSound(c, w, b)
  }

  /** A box's file is its document, and neither that nor what is on its way is ahead of what the box polls. */
  ghost predicate InOrder(c: Chain, w: World, b: nat)
    requires ValidChain(c) && |w.boxes| == |c.source| && b < |w.boxes|
  {
    var box := w.boxes[b];
    && box.file == box.doc
    && Revision(box.doc) <= SourceRevision(c, w, b)
    && (box.pending.Some? && box.pending.value.Fetched? ==>
          Revision(box.doc) <= box.pending.value.doc.revision <= SourceRevision(c, w, b))
  }

  /** What every run in which saves succeed keeps as well. */
  ghost predicate Inv(c: Chain, w: World) {
    Sound(c, w) && forall b :: 0 <= b < |w.boxes| ==> InOrder(c, w, b)
  }

  lemma {:induction false} DocumentAtIsStable(c: Chain, history: seq<Content>, more: seq<Content>, b: nat, r: int)
    requires ValidChain(c) && b < |c.source| && 1 <= r <= |history|
    ensures DocumentAt(c, history + more, b, r) == DocumentAt(c, history, b, r)
    decreases b
  {
    assert (history + more)[r - 1] == history[r - 1];
    if c.source[b].Inner? {
      DocumentAtIsStable(c, history, more, c.source[b].box, r);
    }
  }

  lemma StaysGenuine(c: Chain, history: seq<Content>, more: seq<Content>, b: nat, doc: Option<Document>)
    requires ValidChain(c) && b < |c.source| && Genuine(c, history, b, doc)
    ensures Genuine(c, history + more, b, doc)
  {
    if doc.Some? {
      DocumentAtIsStable(c, history, more, b, doc.value.revision);
    }
  }

  lemma {:induction false} DocumentAtRevision(c: Chain, history: seq<Content>, b: nat, r: int)
    requires ValidChain(c) && b < |c.source| && 1 <= r <= |history|
    ensures DocumentAt(c, history, b, r).Some? ==> DocumentAt(c, history, b, r).value.revision == r
    decreases b
  {
    if c.source[b].Inner? {
      DocumentAtRevision(c, history, c.source[b].box, r);
    }
  }

  /** An answer is the document its asker should hold at the answering side's revision. */
  lemma AnswerIsGenuine(c: Chain, w: World, b: nat, generatedAt: int)
    requires Sound(c, w) && b < |w.boxes|
    ensures var a := AnswerTo(c, w, b, generatedAt);
      a.Fetched? ==>
        && Genuine(c, w.history, b, Some(a.doc))
        && a.doc.revision == SourceRevision(c, w, b)
  {
    var a := AnswerTo(c, w, b, generatedAt);
    if a.Fetched? && c.source[b].Inner? {
      var p := c.source[b].box;
      assert BoxSound(c, w, p);
      var doc := w.boxes[p].doc.value;
      assert OuterNeighbour(Some(doc), c.secret[b]) == OuterNeighbour(Some(Unstamped(doc)), c.secret[b]);
      var hop := OuterNeighbour(Some(doc), c.secret[b]).value;
      assert Unstamped(Truncate(doc, hop, c.cfg[p])) == Truncate(Unstamped(doc), hop, c.cfg[p]);
    }
  }

  lemma StepKeepsBoxSound(c: Chain, w: World, s: Step, b: nat)
    requires Sound(c, w) && Enabled(c, w, s) && b < |w.boxes|
    ensures BoxSound(c, After(c, w, s), b)
  {
    assert BoxSound(c, w, b);
    if s.Bump? {
      StaysGenuine(c, w.history, [s.content], b, w.boxes[b].doc);
      StaysGenuine(c, w.history, [s.content], b, w.boxes[b].file);
      if w.boxes[b].pending.Some? && w.boxes[b].pending.value.Fetched? {
        StaysGenuine(c, w.history, [s.content], b, Some(w.boxes[b].pending.value.doc));
      }
    } else if s.Ask? && s.box == b {
      AnswerIsGenuine(c, w, b, s.generatedAt);
    }
  }

  /** Every step keeps what boxes hold genuine, lost saves included. */
  lemma StepKeepsSound(c: Chain, w: World, s: Step)
    requires Sound(c, w) && Enabled(c, w, s)
    ensures Sound(c, After(c, w, s))
  {
    forall b | 0 <= b < |w.boxes| ensures BoxSound(c, After(c, w, s), b) {
      StepKeepsBoxSound(c, w, s, b);
    }
  }

  lemma {:induction false} RunKeepsSound(c: Chain, run: seq<World>, steps: seq<Step>, i: nat)
    requires IsRun(c, run, steps) && i < |run|
    ensures Sound(c, run[i])
  {
    if i > 0 {
      RunKeepsSound(c, run, steps, i - 1);
      assert Enabled(c, run[i - 1], steps[i - 1]) && run[i - 1 + 1] == After(c, run[i - 1], steps[i - 1]);
      StepKeepsSound(c, run[i - 1], steps[i - 1]);
    }
  }

  /** The box a step is about stays in order and does not go back. */
  lemma OwnStepKeepsOrder(c: Chain, w: World, s: Step, a: nat)
    requires Inv(c, w) && Enabled(c, w, s) && !s.Bump? && a == s.box && a < |w.boxes| && (s.Deliver? ==> s.saved)
    ensures Revision(w.boxes[a].doc) <= Revision(After(c, w, s).boxes[a].doc)
    ensures InOrder(c, After(c, w, s), a)
  {
    assert InOrder(c, w, a);
    assert c.source[a].Inner? ==> c.source[a].box < a;
    if s.Ask? {
      AnswerIsGenuine(c, w, a, s.generatedAt);
    }
  }

  lemma StepKeepsOrder(c: Chain, w: World, s: Step, b: nat)
    requires Inv(c, w) && Enabled(c, w, s) && b < |w.boxes| && (s.Deliver? ==> s.saved)
    ensures InOrder(c, After(c, w, s), b)
    ensures Revision(w.boxes[b].doc) <= Revision(After(c, w, s).boxes[b].doc)
  {
    assert InOrder(c, w, b);
    if !s.Bump? {
      OwnStepKeepsOrder(c, w, s, s.box);
    }
  }

  /** With saves succeeding every step keeps the invariant, and none takes a box back to an earlier revision. */
  lemma StepKeepsInv(c: Chain, w: World, s: Step)
    requires Inv(c, w) && Enabled(c, w, s) && (s.Deliver? ==> s.saved)
    ensures Inv(c, After(c, w, s))
    ensures forall b :: 0 <= b < |w.boxes| ==> Revision(w.boxes[b].doc) <= Revision(After(c, w, s).boxes[b].doc)
  {
    StepKeepsSound(c, w, s);
    forall b | 0 <= b < |w.boxes|
      ensures InOrder(c, After(c, w, s), b) && Revision(w.boxes[b].doc) <= Revision(After(c, w, s).boxes[b].doc)
    {
      StepKeepsOrder(c, w, s, b);
    }
  }

  lemma {:induction false} RunKeepsInv(c: Chain, run: seq<World>, steps: seq<Step>, i: nat)
    requires IsRun(c, run, steps) && SavesSucceed(steps) && i < |run|
    ensures Inv(c, run[i])
  {
    if i > 0 {
      RunKeepsInv(c, run, steps, i - 1);
      assert Enabled(c, run[i - 1], steps[i - 1]) && run[i - 1 + 1] == After(c, run[i - 1], steps[i - 1]);
      StepKeepsInv(c, run[i - 1], steps[i - 1]);
    }
  }

  // ---- the main results ----

  /** In every run in which saves succeed, no box ever goes back to an earlier revision. */
  lemma {:induction false} RevisionsNeverDecrease(c: Chain, run: seq<World>, steps: seq<Step>, i: nat, j: nat, b: nat)
    requires IsRun(c, run, steps) && SavesSucceed(steps) && i <= j < |run| && b < |c.source|
    ensures b < |run[i].boxes| && b < |run[j].boxes| && Revision(run[i].boxes[b].doc) <= Revision(run[j].boxes[b].doc)
    decreases j - i
  {
    RunKeepsInv(c, run, steps, i);
    RunKeepsInv(c, run, steps, j);
    if i < j {
      assert Enabled(c, run[i], steps[i]) && run[i + 1] == After(c, run[i], steps[i]);
      StepKeepsInv(c, run[i], steps[i]);
      RevisionsNeverDecrease(c, run, steps, i + 1, j, b);
    }
  }

  /** In every run in which saves succeed, a box is never ahead of the one it polls, nor that one of the registry. */
  lemma RevisionsFallOutward(c: Chain, run: seq<World>, steps: seq<Step>, i: nat, b: nat)
    requires IsRun(c, run, steps) && SavesSucceed(steps) && i < |run| && b < |c.source|
    ensures |run[i].boxes| == |c.source|
    ensures Revision(run[i].boxes[b].doc) <= SourceRevision(c, run[i], b) <= |run[i].history|
  {
    RunKeepsInv(c, run, steps, i);
    assert InOrder(c, run[i], b);
    if c.source[b].Inner? {
      assert BoxSound(c, run[i], c.source[b].box);
    }
  }

  /** What a document says apart from the one inward address and the time stamp. */
  function Bare(doc: Document): Document {
    WithoutNextHop(doc).(generatedAt := 0)
  }

  /** As a box serves it: `self` carries no Reality target and server name, which the panel's own documents do carry. */
  function AsServed(doc: Document, by_: Source): Document {
    if by_.Panel? then doc else doc.(self := doc.self.(realityTarget := "", realityServerName := ""))
  }

  /** A document at revision r, however far it travelled, is the registry's revision-r document for its reader. */
  lemma {:induction false} DocumentAtIsTheRegistrys(c: Chain, history: seq<Content>, b: nat, r: int)
    requires ValidChain(c) && b < |c.source| && 1 <= r <= |history| && ValidContent(history[r - 1])
    ensures var d := DocumentAt(c, history, b, r);
      d.Some? ==>
        var k := EntryOf(history[r - 1].hops, c.secret[b]);
        k.Some? && Bare(d.value) == Bare(AsServed(RegistryDocument(history[r - 1], r, 0, k.value), c.source[b]))
    decreases b
  {
    var d := DocumentAt(c, history, b, r);
    if d.Some? && c.source[b].Inner? {
      var p := c.source[b].box;
      DocumentAtIsTheRegistrys(c, history, p, r);
      var inner := DocumentAt(c, history, p, r).value;
      TruncatedIsTheRegistrys(history[r - 1], r, EntryOf(history[r - 1].hops, c.secret[p]).value, inner, c.source[p], c.secret[b], c.cfg[p]);
    }
  }

  /** What two documents that say the same have in common with the one they were taken from. */
  lemma SameBare(doc: Document, reg: Document, by_: Source)
    requires Bare(doc) == Bare(AsServed(reg, by_))
    ensures doc.hops == reg.hops && doc.self.name == reg.self.name && doc.activeEdge == reg.activeEdge
    ensures doc.ports == reg.ports && doc.revision == reg.revision
  {
    assert doc.hops == Bare(doc).hops && doc.self.name == Bare(doc).self.name && doc.activeEdge == Bare(doc).activeEdge;
    assert doc.ports == Bare(doc).ports && doc.revision == Bare(doc).revision;
  }

  /** One more cut of the registry's document for a hop is the registry's document for its outer neighbour. */
  lemma TruncatedIsTheRegistrys(content: Content, r: int, kp: nat, inner: Document, by_: Source, secret: string, cfg: Config)
    requires ValidContent(content) && kp < |content.hops|
    requires Bare(inner) == Bare(AsServed(RegistryDocument(content, r, 0, kp), by_)) && OuterNeighbour(Some(inner), secret).Some?
    ensures var k := EntryOf(content.hops, secret);
      k.Some? && Bare(Truncate(inner, OuterNeighbour(Some(inner), secret).value, cfg))
                 == Bare(AsServed(RegistryDocument(content, r, 0, k.value), Inner(0)))
  {
    SameBare(inner, RegistryDocument(content, r, 0, kp), by_);
    ServesNotAlone(inner, secret);
    assert content.hops[kp].role != ROLE_EDGE;
    ServedIsListed(content.hops, kp, OuterNeighbour(Some(inner), secret).value, secret);
    CutIsTheRegistrys(content, r, EntryOf(content.hops, secret).value, inner, cfg);
  }

  /** A box that lists itself alone serves nobody. */
  lemma ServesNotAlone(doc: Document, secret: string)
    requires OuterNeighbour(Some(doc), secret).Some?
    ensures forall h :: doc.hops == [h] ==> h.name != doc.self.name
  {
  }

  /** A hop further out in the list is the one the registry lists for its secret. */
  lemma ServedIsListed(hops: seq<Hop>, kp: nat, hop: Hop, secret: string)
    requires UniqueNames(hops) && UniqueSecrets(hops) && kp < |hops| && hop in hops[kp..] && hop.secretHash == Sha256(secret)
    ensures var k := EntryOf(hops, secret);
      k.Some? && hops[k.value] == hop && OutwardFrom(hops[kp..], hop.name) == hops[k.value..]
  {
    var j :| 0 <= j < |hops[kp..]| && hops[kp..][j] == hop;
    SuffixOfSuffix(hops, kp, j);
    UniqueEntry(hops, secret, kp + j);
  }

  lemma CutIsTheRegistrys(content: Content, r: int, k: nat, inner: Document, cfg: Config)
    requires k < |content.hops| && OutwardFrom(inner.hops, content.hops[k].name) == content.hops[k..]
    requires inner.activeEdge == content.activeEdge && inner.ports == content.ports && inner.revision == r
    ensures Bare(Truncate(inner, content.hops[k], cfg)) == Bare(AsServed(RegistryDocument(content, r, 0, k), Inner(0)))
  {
  }

  lemma UniqueEntry(hops: seq<Hop>, secret: string, k: nat)
    requires UniqueSecrets(hops) && k < |hops| && hops[k].secretHash == Sha256(secret)
    ensures EntryOf(hops, secret) == Some(k)
  {
    var e := EntryOf(hops, secret).value;
    assert hops[e].secretHash == hops[k].secretHash;
  }

  /** A genuine document is the registry's. */
  lemma GenuineIsTheRegistrys(c: Chain, history: seq<Content>, b: nat, doc: Document)
    requires ValidChain(c) && b < |c.source| && Genuine(c, history, b, Some(doc)) && ValidContent(history[doc.revision - 1])
    ensures var content := history[doc.revision - 1];
            var k := EntryOf(content.hops, c.secret[b]);
      k.Some? && Bare(doc) == Bare(AsServed(RegistryDocument(content, doc.revision, 0, k.value), c.source[b]))
  {
    DocumentAtIsTheRegistrys(c, history, b, doc.revision);
    assert Bare(doc) == Bare(Unstamped(doc));
  }

  lemma HeldIsTheRegistrys(c: Chain, w: World, b: nat)
    requires Sound(c, w) && b < |c.source| && w.boxes[b].doc.Some?
    ensures var doc := w.boxes[b].doc.value;
      && 1 <= doc.revision <= |w.history|
      && var content := w.history[doc.revision - 1];
         var k := EntryOf(content.hops, c.secret[b]);
         k.Some? && Bare(doc) == Bare(AsServed(RegistryDocument(content, doc.revision, 0, k.value), c.source[b]))
  {
    assert BoxSound(c, w, b);
    GenuineIsTheRegistrys(c, w.history, b, w.boxes[b].doc.value);
  }

  /**
   In every run, lost saves and restarts included, whatever document a box holds is the registry's document for that box
   at the document's revision, as the box it polls serves it.
   */
  lemma EveryDocumentIsTheRegistrys(c: Chain, run: seq<World>, steps: seq<Step>, i: nat, b: nat)
    requires IsRun(c, run, steps) && i < |run| && b < |c.source|
    ensures |run[i].boxes| == |c.source|
    ensures var doc := run[i].boxes[b].doc;
      doc.Some? ==>
        && 1 <= doc.value.revision <= |run[i].history|
        && var content := run[i].history[doc.value.revision - 1];
           var k := EntryOf(content.hops, c.secret[b]);
           k.Some? && Bare(doc.value) == Bare(AsServed(RegistryDocument(content, doc.value.revision, 0, k.value), c.source[b]))
  {
    RunKeepsSound(c, run, steps, i);
    if run[i].boxes[b].doc.Some? {
      HeldIsTheRegistrys(c, run[i], b);
    }
  }

  /**
   So a box reads in `self` what the registry says of it if and only if it polls the panel or the registry gives it no
   Reality target; its own entry in front of the list is whole in any case.
   */
  lemma SelfIsWholeIff(c: Chain, run: seq<World>, steps: seq<Step>, i: nat, b: nat)
    requires IsRun(c, run, steps) && i < |run| && b < |c.source|
    ensures |run[i].boxes| == |c.source|
    ensures var doc := run[i].boxes[b].doc;
      doc.Some? ==>
        && 1 <= doc.value.revision <= |run[i].history|
        && var content := run[i].history[doc.value.revision - 1];
           var k := EntryOf(content.hops, c.secret[b]);
           && k.Some?
           && (doc.value.self == RegistryDocument(content, doc.value.revision, 0, k.value).self
               <==> c.source[b].Panel?
                    || (content.hops[k.value].realityTarget == "" && content.hops[k.value].realityServerName == ""))
           && |doc.value.hops| > 0 && doc.value.hops[0] == content.hops[k.value]
  {
    EveryDocumentIsTheRegistrys(c, run, steps, i, b);
    var doc := run[i].boxes[b].doc;
    if doc.Some? {
      assert doc.value.self == Bare(doc.value).self && doc.value.hops == Bare(doc.value).hops;
    }
  }

  /** A box under the panel, and one that polls it. */
  const TWO_BOXES := Chain([Panel, Inner(0)], ["s", "t"], [Config("", 0, false), Config("", 0, false)])

  /** An inner hop and an edge with a Reality target, in one revision. */
  function EdgeBehindInner(target: string): Content {
    Content([Hop("a", ROLE_INNER, "", 0, Sha256("s"), "", "", ""), Hop("b", ROLE_EDGE, "", 0, Sha256("t"), "", target, "")],
            [], "", NextHop("", 0, "", "", "", ""))
  }

  lemma EdgeBehindInnerIsListed(target: string)
    ensures ValidContent(EdgeBehindInner(target))
    ensures EntryOf(EdgeBehindInner(target).hops, "s") == Some(0) && EntryOf(EdgeBehindInner(target).hops, "t") == Some(1)
  {
    var hops := EdgeBehindInner(target).hops;
    assert hops[0].name[0] != hops[1].name[0];
    assert hops[0].secretHash.secret[0] != hops[1].secretHash.secret[0];
    assert "s"[0] != "t"[0];
    assert hops[1..] == [hops[1]];
  }

  /** The inner box polls that revision. */
  lemma InnerIsServed(target: string) returns (run: seq<World>, steps: seq<Step>)
    ensures IsRun(TWO_BOXES, run, steps) && SavesSucceed(steps)
    ensures var own := Some(RegistryDocument(EdgeBehindInner(target), 1, 0, 0));
      run[|run| - 1] == World([EdgeBehindInner(target)], [Box(own, own, None), Box(None, None, None)])
  {
    var content, empty := EdgeBehindInner(target), Box(None, None, None);
    EdgeBehindInnerIsListed(target);
    var own := RegistryDocument(content, 1, 0, 0);
    var w0, w1 := World([], [empty, empty]), World([content], [empty, empty]);
    var w2 := World([content], [Box(None, None, Some(Fetched(own))), empty]);
    var w3 := World([content], [Box(Some(own), Some(own), None), empty]);
    assert w2 == After(TWO_BOXES, w1, Ask(0, 0));
    assert w3 == After(TWO_BOXES, w2, Deliver(0, true));
    ThreeMore(TWO_BOXES, [w0], [], Bump(content), Ask(0, 0), Deliver(0, true), w1, w2, w3);
    run, steps := [w0] + [w1] + [w2] + [w3], [] + [Bump(content), Ask(0, 0), Deliver(0, true)];
  }

  /** The edge behind the inner box never reads its Reality target in `self`. */
  lemma EdgeReadsNoTarget(target: string) returns (run: seq<World>, steps: seq<Step>)
    requires target != ""
    ensures IsRun(TWO_BOXES, run, steps) && SavesSucceed(steps)
    ensures var w := run[|run| - 1];
      && |w.boxes| == 2 && w.history == [EdgeBehindInner(target)]
      && w.boxes[1].doc.Some? && w.boxes[1].doc.value.revision == 1
      && w.boxes[1].doc.value.self.realityTarget == "" && w.boxes[1].doc.value.hops == [EdgeBehindInner(target).hops[1]]
      && RegistryDocument(EdgeBehindInner(target), 1, 0, 1).self.realityTarget == target
  {
    run, steps := InnerIsServed(target);
    EdgeIsServed(target, RegistryDocument(EdgeBehindInner(target), 1, 0, 0));
    ExtendRun(TWO_BOXES, run, steps, Ask(1, 0));
    run, steps := run + [After(TWO_BOXES, run[|steps|], Ask(1, 0))], steps + [Ask(1, 0)];
    ExtendRun(TWO_BOXES, run, steps, Deliver(1, true));
    run, steps := run + [After(TWO_BOXES, run[|steps|], Deliver(1, true))], steps + [Deliver(1, true)];
  }

  lemma EdgeIsServed(target: string, doc: Document)
    requires doc == RegistryDocument(EdgeBehindInner(target), 1, 0, 0)
    ensures OuterNeighbour(Some(doc), "t") == Some(EdgeBehindInner(target).hops[1])
  {
    EdgeBehindInnerIsListed(target);
    assert EdgeBehindInner(target).hops[0..] == EdgeBehindInner(target).hops;
    assert doc.hops[1..] == [doc.hops[1]];
    assert doc.hops[1].name[0] != doc.self.name[0];
    assert FindSecret(doc.hops, doc.self.name, "t") == FindSecret(doc.hops[1..], doc.self.name, "t");
  }

  lemma ExtendRun(c: Chain, run: seq<World>, steps: seq<Step>, s: Step)
    requires IsRun(c, run, steps) && |run[|steps|].boxes| == |c.source| && Enabled(c, run[|steps|], s)
    ensures IsRun(c, run + [After(c, run[|steps|], s)], steps + [s])
  {
    var longer, more := run + [After(c, run[|steps|], s)], steps + [s];
    forall i | 0 <= i < |more|
      ensures |longer[i].boxes| == |c.source| && Enabled(c, longer[i], more[i]) && longer[i + 1] == After(c, longer[i], more[i])
    {
      assert longer[i] == run[i] && more[i] == if i < |steps| then steps[i] else s;
    }
  }

  lemma ThreeMore(c: Chain, run: seq<World>, steps: seq<Step>, s1: Step, s2: Step, s3: Step, w1: World, w2: World, w3: World)
    requires IsRun(c, run, steps) && |run[|steps|].boxes| == |w1.boxes| == |w2.boxes| == |c.source|
    requires Enabled(c, run[|steps|], s1) && w1 == After(c, run[|steps|], s1)
    requires Enabled(c, w1, s2) && w2 == After(c, w1, s2) && Enabled(c, w2, s3) && w3 == After(c, w2, s3)
    ensures IsRun(c, run + [w1] + [w2] + [w3], steps + [s1, s2, s3])
  {
    ExtendRun(c, run, steps, s1);
    ExtendRun(c, run + [w1], steps + [s1], s2);
    ExtendRun(c, run + [w1] + [w2], steps + [s1] + [s2], s3);
    assert steps + [s1, s2, s3] == steps + [s1] + [s2] + [s3];
  }

  /** One box under the panel. */
  const ONE_BOX := Chain([Panel], ["s"], [Config("", 0, false)])

  /** One revision of the registry reaches the one box. */
  lemma Lap(content: Content, run: seq<World>, steps: seq<Step>, saved: bool) returns (run': seq<World>, steps': seq<Step>)
    requires ValidContent(content) && EntryOf(content.hops, "s").Some? && IsRun(ONE_BOX, run, steps)
    requires var w := run[|steps|]; |w.boxes| == 1 && w.boxes[0].pending.None? && Revision(w.boxes[0].doc) <= |w.history|
    ensures IsRun(ONE_BOX, run', steps') && run <= run' && |run'[|steps'|].boxes| == 1
    ensures var w, n := run[|steps|], run'[|steps'|];
      && |n.history| == |w.history| + 1 && n.boxes[0].pending.None? && Revision(n.boxes[0].doc) == |n.history|
      && n.boxes[0].file == if saved then n.boxes[0].doc else w.boxes[0].file
  {
    run', steps' := run, steps;
    ExtendRun(ONE_BOX, run', steps', Bump(content));
    run', steps' := run' + [After(ONE_BOX, run'[|steps'|], Bump(content))], steps' + [Bump(content)];
    ExtendRun(ONE_BOX, run', steps', Ask(0, 0));
    run', steps' := run' + [After(ONE_BOX, run'[|steps'|], Ask(0, 0))], steps' + [Ask(0, 0)];
    ExtendRun(ONE_BOX, run', steps', Deliver(0, saved));
    run', steps' := run' + [After(ONE_BOX, run'[|steps'|], Deliver(0, saved))], steps' + [Deliver(0, saved)];
  }

  /** Without the saves the first result fails: one lost write and a restart take a box from revision 2 back to 1. */
  lemma LostSaveGoesBack(content: Content) returns (run: seq<World>, steps: seq<Step>, i: nat)
    requires ValidContent(content) && EntryOf(content.hops, "s").Some?
    ensures IsRun(ONE_BOX, run, steps) && i + 1 < |run| && |run[i].boxes| == |run[i + 1].boxes| == 1
    ensures Revision(run[i].boxes[0].doc) == 2 && Revision(run[i + 1].boxes[0].doc) == 1
  {
    run, steps := [World([], [Box(None, None, None)])], [];
    run, steps := Lap(content, run, steps, true);
    run, steps := Lap(content, run, steps, false);
    i := |steps|;
    ExtendRun(ONE_BOX, run, steps, Restart(0));
    run, steps := run + [After(ONE_BOX, run[i], Restart(0))], steps + [Restart(0)];
  }
}
