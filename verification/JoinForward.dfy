/**
 Join requests travelling inward: every hop passes the body on untouched to its next hop, counts the forward in
 X-Chain-Forwarded and keeps in X-Chain-Observed where the joining box was seen.
 */
module JoinForward {
  import opened Text

  const MAX_JOIN_BYTES := 4096
  const MAX_JOIN_FORWARDS := 16
  const MIN_INT64: int := -0x8000_0000_0000_0000
  const MAX_INT64: int := 0x7FFF_FFFF_FFFF_FFFF

  datatype Next = Panel | Hop(box: nat) | Unreachable

  /** Any graph of next hops, cycles included, and the address each box is seen at. */
  datatype Net = Net(next: seq<Next>, address: seq<string>)

  ghost predicate ValidNet(net: Net) {
    |net.address| == |net.next| && forall b :: 0 <= b < |net.next| && net.next[b].Hop? ==> net.next[b].box < |net.next|
  }

  /** A join as it reaches a box: `remote` is the address of the connection, the headers are empty when absent. */
  datatype Request = Request(body: string, observed: string, forwarded: string, remote: string)

  /** strconv.Atoi with its error ignored: 0 for what is no number, the nearest int64 for what does not fit. */
  function Atoi(s: string): (n: int)
    ensures MIN_INT64 <= n <= MAX_INT64
  {
    match ParseInt(s)
    case None => 0
    case Some(n) => if n > MAX_INT64 then MAX_INT64 else if n < MIN_INT64 then MIN_INT64 else n
  }

  function Incremented(n: int): int {
    if n == MAX_INT64 then MIN_INT64 else n + 1
  }

  /** How many more forwards a request with this count can make. */
  function Remaining(count: int): nat
    requires MIN_INT64 <= count <= MAX_INT64
  {
    if count == MAX_INT64 then MAX_JOIN_FORWARDS + 1 - MIN_INT64
    else if count >= MAX_JOIN_FORWARDS then 0
    else MAX_JOIN_FORWARDS - count
  }

  predicate Accepted(body: string, hasToken: string -> bool) {
    |body| <= MAX_JOIN_BYTES && hasToken(body)
  }

  datatype Outcome =
    | Refused                       // a bare 404: no token
    | TooLarge
    | JoinLoop
    | BadGateway                    // the next hop could not be reached
    | AtPanel(request: Request)     // the panel answers this request, and the answer travels back unread

  /** Every forward made for a request before it was answered, in order, and what answered it. */
  datatype Journey = Journey(sent: seq<Request>, outcome: Outcome)

  /** The address a box takes the joining box to have. */
  function Observed(r: Request): string {
    if r.observed == "" then r.remote else r.observed
  }

  function Onward(net: Net, at: nat, r: Request): Request
    requires ValidNet(net) && at < |net.next|
  {
    Request(r.body, Observed(r),
            FormatInt(Incremented(Atoi(r.forwarded))), net.address[at])
  }

  lemma CountIsRead(n: int)
    requires MIN_INT64 <= n <= MAX_INT64
    ensures Atoi(FormatInt(n)) == n
  {
    ParseFormatInt(n);
  }

  function Travel(net: Net, hasToken: string -> bool, at: nat, r: Request): Journey
    requires ValidNet(net) && at < |net.next|
    decreases Remaining(Atoi(r.forwarded))
  {
    if |r.body| > MAX_JOIN_BYTES then Journey([], TooLarge)
    else if !hasToken(r.body) then Journey([], Refused)
    else if Incremented(Atoi(r.forwarded)) > MAX_JOIN_FORWARDS then Journey([], JoinLoop)
    else
      var onward := Onward(net, at, r);
      match net.next[at]
      case Unreachable => Journey([onward], BadGateway)
      case Panel => Journey([onward], AtPanel(onward))
      case Hop(b) =>
        CountIsRead(Incremented(Atoi(r.forwarded)));
        var rest := Travel(net, hasToken, b, onward);
        Journey([onward] + rest.sent, rest.outcome)
  }

  /** Every forward has this body and tells this address, and they count on from `count`. */
  predicate Carries(sent: seq<Request>, body: string, observed: string, count: int) {
    forall i :: 0 <= i < |sent| ==>
      sent[i].body == body && sent[i].observed == observed && sent[i].forwarded == FormatInt(count + i)
  }

  lemma CarriesOneMore(r: Request, rest: seq<Request>, body: string, observed: string, count: int)
    requires r.body == body && r.observed == observed && r.forwarded == FormatInt(count)
    requires Carries(rest, body, observed, count + 1)
    ensures Carries([r] + rest, body, observed, count)
  {
  }

  /**
   In every graph, every forward of a request carries the body as it came, counts one further, and tells the same
   observed address: the header's, or else the one the first receiver saw. What the panel gets is the last of them.
   */
  lemma {:induction false} TravelIsFaithful(net: Net, hasToken: string -> bool, at: nat, r: Request)
    requires ValidNet(net) && at < |net.next| && Observed(r) != ""
    ensures var j := Travel(net, hasToken, at, r);
      && Carries(j.sent, r.body, Observed(r), Incremented(Atoi(r.forwarded)))
      && (j.outcome.AtPanel? ==> |j.sent| > 0 && j.outcome.request == j.sent[|j.sent| - 1])
    decreases Remaining(Atoi(r.forwarded))
  {
    if Accepted(r.body, hasToken) && Incremented(Atoi(r.forwarded)) <= MAX_JOIN_FORWARDS {
      var onward := Onward(net, at, r);
      var count := Incremented(Atoi(r.forwarded));
      CountIsRead(count);
      if net.next[at].Hop? {
        var rest := Travel(net, hasToken, net.next[at].box, onward);
        TravelIsFaithful(net, hasToken, net.next[at].box, onward);
        CarriesOneMore(onward, rest.sent, r.body, Observed(r), count);
      } else {
        CarriesOneMore(onward, [], r.body, Observed(r), count);
        assert [onward] + [] == [onward];
      }
    }
  }

  /** One box that is its own next hop. */
  const LOOP := Net([Hop(0)], ["10.0.0.1"])

  lemma {:induction false} LoopUsesEveryForward(hasToken: string -> bool, r: Request)
    requires Accepted(r.body, hasToken)
    ensures ValidNet(LOOP) && Travel(LOOP, hasToken, 0, r).outcome.JoinLoop?
    ensures |Travel(LOOP, hasToken, 0, r).sent| == Remaining(Atoi(r.forwarded))
    decreases Remaining(Atoi(r.forwarded))
  {
    if Incremented(Atoi(r.forwarded)) <= MAX_JOIN_FORWARDS {
      CountIsRead(Incremented(Atoi(r.forwarded)));
      LoopUsesEveryForward(hasToken, Onward(LOOP, 0, r));
    }
  }

  ghost predicate AtMostSixteen(hasToken: string -> bool, r: Request) {
    forall net, at: nat :: ValidNet(net) && at < |net.next| ==> |Travel(net, hasToken, at, r).sent| <= MAX_JOIN_FORWARDS
  }

  /**
   The cap holds in every graph exactly when the count the request arrives with is a sane one. A request that comes
   with a negative count, or with one whose increment wraps, is forwarded more often.
   */
  lemma SixteenForwardsIffCountIsSane(hasToken: string -> bool, r: Request)
    requires Accepted(r.body, hasToken)
    ensures AtMostSixteen(hasToken, r) <==> 0 <= Atoi(r.forwarded) < MAX_INT64
  {
    LoopUsesEveryForward(hasToken, r);
    if 0 <= Atoi(r.forwarded) < MAX_INT64 {
      forall net, at: nat | ValidNet(net) && at < |net.next|
        ensures |Travel(net, hasToken, at, r).sent| <= MAX_JOIN_FORWARDS
      {
        ForwardsAreBounded(net, hasToken, at, r);
      }
    } else {
      var at: nat := 0;
      assert at < |LOOP.next| && |Travel(LOOP, hasToken, at, r).sent| > MAX_JOIN_FORWARDS;
    }
  }

  lemma {:induction false} ForwardsAreBounded(net: Net, hasToken: string -> bool, at: nat, r: Request)
    requires ValidNet(net) && at < |net.next|
    ensures |Travel(net, hasToken, at, r).sent| <= Remaining(Atoi(r.forwarded))
    decreases Remaining(Atoi(r.forwarded))
  {
    if Accepted(r.body, hasToken) && Incremented(Atoi(r.forwarded)) <= MAX_JOIN_FORWARDS && net.next[at].Hop? {
      CountIsRead(Incremented(Atoi(r.forwarded)));
      ForwardsAreBounded(net, hasToken, net.next[at].box, Onward(net, at, r));
    }
  }

  /** The panel is at most k forwards inward of a box. */
  predicate PanelWithin(net: Net, at: nat, k: nat)
    requires ValidNet(net) && at < |net.next|
    decreases k
  {
    k > 0 && match net.next[at] case Panel => true case Hop(b) => PanelWithin(net, b, k - 1) case Unreachable => false
  }

  lemma OneForwardLess(count: int)
    requires MIN_INT64 <= count <= MAX_INT64 && Incremented(count) <= MAX_JOIN_FORWARDS
    ensures Remaining(Incremented(count)) == Remaining(count) - 1
  {
  }

  lemma PanelOneCloser(net: Net, at: nat, k: nat)
    requires ValidNet(net) && at < |net.next| && k > 0
    ensures PanelWithin(net, at, k) <==>
            match net.next[at] case Panel => true case Hop(b) => PanelWithin(net, b, k - 1) case Unreachable => false
  {
  }

  /** Whatever count it comes with, a request arrives exactly when the panel is within the forwards it has left. */
  lemma {:induction false} ArrivesIffPanelIsNear(net: Net, hasToken: string -> bool, at: nat, r: Request)
    requires ValidNet(net) && at < |net.next| && Accepted(r.body, hasToken)
    ensures Travel(net, hasToken, at, r).outcome.AtPanel? <==> PanelWithin(net, at, Remaining(Atoi(r.forwarded)))
    decreases Remaining(Atoi(r.forwarded))
  {
    var count := Atoi(r.forwarded);
    if Incremented(count) <= MAX_JOIN_FORWARDS {
      OneForwardLess(count);
      PanelOneCloser(net, at, Remaining(count));
      if net.next[at].Hop? {
        CountIsRead(Incremented(count));
        ArrivesIffPanelIsNear(net, hasToken, net.next[at].box, Onward(net, at, r));
      }
    } else {
      assert Remaining(count) == 0;
    }
  }

  /** The first receiver takes the header's word: what travels on is what it saw itself iff the header was absent or agreed. */
  lemma ObservedIsSeenIffHeaderAgrees(net: Net, hasToken: string -> bool, at: nat, r: Request)
    requires ValidNet(net) && at < |net.next| && r.remote != ""
    requires Accepted(r.body, hasToken) && Incremented(Atoi(r.forwarded)) <= MAX_JOIN_FORWARDS
    ensures (forall i :: 0 <= i < |Travel(net, hasToken, at, r).sent| ==>
               Travel(net, hasToken, at, r).sent[i].observed == r.remote)
            <==> r.observed == "" || r.observed == r.remote
  {
    TravelIsFaithful(net, hasToken, at, r);
    assert Travel(net, hasToken, at, r).sent[0].observed == Observed(r);
  }
}
