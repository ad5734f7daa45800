/** Which hosts keep clients apart: exactly those without a newline.  A host with one cuts its
    own control line short, and may hide another line behind it. */
module Crossing {
  import opened Text
  import opened Control
  import opened RelayTables
  import Socks5
  import opened Rendezvous
  import opened Crosstalk
  import RendezvousTheorems
  import opened Witnesses

  // ---- Hosts a request can carry ----

  /** A text that fits a domain name field: at most 255 bytes. */
  predicate IsDomain(host: string) {
    |host| <= 255 && forall i :: 0 <= i < |host| ==> host[i] as int < 256
  }

  /** The request that asks for it. */
  function AskFor(host: string, port: nat): Socks5.Request
    requires IsDomain(host)
  {
    Socks5.Request(Socks5.DOMAIN, seq(|host|, i requires 0 <= i < |host| => host[i] as int as Byte), port)
  }

  lemma AskForHost(host: string, port: nat, ip: string)
    requires IsDomain(host) && port < 0x1_0000
    ensures Possible(Socks5.Connect(AskFor(host, port)), ip)
    ensures HostOf(AskFor(host, port), ip) == host && AskFor(host, port).port == port
  {
    assert Chars(AskFor(host, port).addr) == host;
  }

  // ---- A newline in a host cuts its control line short ----

  /** What the phone makes of the line up to the newline. */
  lemma CutLine(cid: string, pre: string, self: string) returns (cut: string)
    requires ':' !in cid && '\n' !in pre
    ensures '\n' !in cut
    ensures ParseOrder(TrimSpace(ClientForText(cid, pre) + "\n"), self) == Some(OpenTarget(cid, cut))
  {
    var s, n := ClientForText(cid, pre) + "\n", 5 + |cid|;
    assert s[n] == ':' && s[0] == 'c';
    assert TrimLeft(s) == s;
    TrimRightKeeps(s, n);
    var r := TrimRight(s);
    assert s[|s| - 1] == '\n';
    cut := r[n + 1..];
    assert cut <= pre;
    assert r == ClientForText(cid, cut);
    ClientForParses(cid, cut, self);
  }

  lemma TwoLines(l0: string, l1: string, rest: string)
    requires OneLine(l0) && OneLine(l1)
    ensures LinesOf(l0 + (l1 + rest)) == [l0, l1] + LinesOf(rest)
  {
    hide LinesOf, OneLine;
    LinesOfCons(l1, rest);
    LinesOfCons(l0, l1 + rest);
  }

  lemma OrderedText(target: string)
    ensures BytesOf(Ordered(target)) == Encode(Identify(1)) + Encode(ClientFor(ClientId(1), target))
  {
    hide Encode;
    var m0, m1 := Identify(1), ClientFor(ClientId(1), target);
    assert Messages(Ordered(target).log) == [] + [m0] + [m1];
    WireAppend([], m0);
    WireAppend([] + [m0], m1);
  }

  /** The message of a target with a newline is the line before it and what is left. */
  lemma CutMessage(cid: string, pre: string, post: string)
    ensures Encode(ClientFor(cid, pre + "\n" + post)) == ClientForText(cid, pre) + "\n" + (post + "\n")
  {
  }

  /** The order for a client whose target holds a newline is for another target. */
  lemma CutOrder(target: string) returns (cut: string)
    requires '\n' in target
    ensures '\n' !in cut && OrderAt(BytesOf(Ordered(target)), 1) == Some(OpenTarget(ClientId(1), cut))
  {
    hide LinesOf, Encode, ParseOrder, TrimSpace, BytesOf, ClientForText;
    var i := IndexOf(target, '\n');
    var pre, post := target[..i], target[i + 1..];
    assert target == pre + "\n" + post;
    var l0, l1 := Encode(Identify(1)), ClientForText(ClientId(1), pre) + "\n";
    assert ClientId(1) == "c1";
    CutMessage(ClientId(1), pre, post);
    OrderedText(target);
    MessageRoundTrip(Identify(1), "");
    CutIsOneLine(pre);
    TwoLines(l0, l1, post + "\n");
    cut := CutLine(ClientId(1), pre, TrimSpace(l0)[3..]);
  }

  lemma CutIsOneLine(pre: string)
    requires '\n' !in pre
    ensures OneLine(ClientForText(ClientId(1), pre) + "\n")
  {
    assert ClientId(1) == "c1";
    var text := ClientForText(ClientId(1), pre);
    assert (text + "\n")[..|text|] == text && '\n' !in text;
  }

  lemma HostStandsInTarget(target: string, host: string, port: nat)
    requires ReadsAs(target, host, port) && '\n' in host
    ensures '\n' in target
  {
    var i: nat :| ColonAt(target, i) && ReadsAt(target, i, host, port);
    var k :| 0 <= k < |host| && host[k] == '\n';
    assert target[..i][if ':' in host then k + 1 else k] == '\n';
  }

  /** A client that asks for a domain name with a newline in it is handed, by an honest phone, a
      connection to something else, and nobody else need be there. */
  lemma NewlineCrosses(host: string, port: nat)
    requires IsDomain(host) && port < 0x1_0000 && '\n' in host
    ensures exists w ::
              && Reachable(w) && KeysApart(w) && PhonesHonest(w)
              && (forall h :: h in w.hs && w.hs[h].role.Client? ==> w.hs[h].role.host == host)
              && Served(w, 1, 2, host, port) && !FromOwnOrder(w, 1)
  {
    hide Reachable, Served, KeysApart, PhonesHonest, HostsClean, JoinHostPort, OrderAt, BytesOf, Possible;
    AskForHost(host, port, "");
    var w0 := PhoneAndClient(AskFor(host, port), "");
    var target := JoinHostPort(host, port);
    JoinHostPortShape(host, port);
    var cut := CutOrder(target);
    var origin := Some(Origin(0, 1));
    var w := DataServes(w0, 2, 1, 1, origin);
    NobodyElse(w, host, port, origin);
    ServedGot(w, 1, 2, host, port);
    if ReadsAs(cut, host, port) {
      HostStandsInTarget(cut, host, port);
    }
    assert !FromOwnOrder(w, 1);
  }

  // ---- The exact condition ----

  /** On every run with honest phones in which clients ask for permitted hosts only, each client is
      handed only connections opened for orders that name its own number and target. */
  ghost predicate NeverCrosses(permitted: string -> bool) {
    forall w, h ::
      Reachable(w) && PhonesHonest(w) && OnlyHosts(w, permitted) && h in w.hs && w.hs[h].role.Client?
      && w.hs[h].got.Some? ==>
        FromOwnOrder(w, h)
  }

  ghost predicate OnlyHosts(w: World, permitted: string -> bool) {
    forall h :: h in w.hs && w.hs[h].role.Client? ==> permitted(w.hs[h].role.host)
  }

  /** Every host a client may ask for is a domain name that fits its field, or has no newline. */
  ghost predicate HostsFit(w: World) {
    forall h :: h in w.hs && w.hs[h].role.Client? ==> IsDomain(w.hs[h].role.host) || '\n' !in w.hs[h].role.host
  }

  lemma HostFits(req: Socks5.Request, ip: string)
    requires Possible(Socks5.Connect(req), ip)
    ensures IsDomain(HostOf(req, ip)) || '\n' !in HostOf(req, ip)
  {
  }

  lemma OnlyRequestsName(w: World, e: Event)
    requires Enabled(w, e) && !e.Accept? && Move(w, e).role.Client?
    ensures Move(w, e).role == w.hs[e.h].role || (e.Request? && e.outcome.Connect?)
    ensures e.Request? && e.outcome.Connect? ==> Move(w, e).role.host == HostOf(e.outcome.req, e.ip)
  {
    hide Obeys, HostOf;
  }

  lemma {:induction false} HostsFitAlways(events: seq<Event>)
    requires Run(events).Some?
    ensures HostsFit(Run(events).value)
  {
    if events == [] {
    } else {
      var before, e := events[..|events| - 1], events[|events| - 1];
      var w := Run(before).value;
      HostsFitAlways(before);
      if !e.Accept? && Move(w, e).role.Client? {
        OnlyRequestsName(w, e);
        if e.Request? && e.outcome.Connect? {
          HostFits(e.outcome.req, e.ip);
        }
      }
    }
  }

  /** Clients are kept apart, whatever else happens, exactly when no domain name that clients may
      ask for holds a newline. */
  lemma NeverCrossesExactly(permitted: string -> bool)
    ensures NeverCrosses(permitted) <==> forall host :: permitted(host) && IsDomain(host) ==> '\n' !in host
  {
    if forall host :: permitted(host) && IsDomain(host) ==> '\n' !in host {
      forall w, h | Reachable(w) && PhonesHonest(w) && OnlyHosts(w, permitted) && h in w.hs
                    && w.hs[h].role.Client? && w.hs[h].got.Some?
        ensures FromOwnOrder(w, h)
      {
        var events :| Run(events) == Some(w);
        HostsFitAlways(events);
        assert HostsClean(w);
        RendezvousTheorems.NoCrosstalk(events, h);
      }
    }
    if host :| permitted(host) && IsDomain(host) && '\n' in host {
      NewlineCrosses(host, 80);
      var w :| Reachable(w) && PhonesHonest(w) && OnlyHosts(w, permitted) && Served(w, 1, 2, host, 80)
               && !FromOwnOrder(w, 1);
    }
  }

  // ---- A newline can hide a line for another client ----

  /** A host that hides an order for the second client to connect to `goal`. */
  function Bait(goal: string): string {
    "\n" + ("\n" + Encode(ClientFor(ClientId(2), goal)))
  }

  lemma BaitTarget(goal: string)
    ensures JoinHostPort(Bait(goal), 80) == "[" + Bait(goal) + "]:" + "80"
  {
    var hidden := Encode(ClientFor(ClientId(2), goal));
    assert hidden[4] == ':' && Bait(goal)[6] == ':';
    assert Dec(80) == Dec(8) + ['0'] == "80";
  }

  lemma Regroup(p: string, b: string, nl: string, hidden: string, q: string)
    ensures p + (b + (nl + (nl + hidden)) + q) + nl == (p + b + nl) + (nl + (hidden + (q + nl)))
  {
  }

  lemma BaitEnds()
    ensures "conn:" + ClientId(1) + ":" + "[" + "\n" == "conn:c1:[\n" && "]:" + "80" + "\n" == "]:80\n"
    ensures OneLine("conn:c1:[\n") && OneLine("\n")
  {
    assert ClientId(1) == "c1";
  }

  /** The message with the bait is four pieces, and the third is the hidden line. */
  lemma BaitPieces(bait: string, hidden: string)
    requires bait == "\n" + ("\n" + hidden)
    ensures Encode(ClientFor(ClientId(1), "[" + bait + "]:" + "80"))
            == "conn:c1:[\n" + ("\n" + (hidden + "]:80\n"))
  {
    hide ClientId;
    BaitEnds();
    var p, q := "conn:" + ClientId(1) + ":", "]:" + "80";
    Assoc("[" + bait, "]:", "80");
    Regroup(p, "[", "\n", hidden, q);
  }

  lemma FourLines(l0: string, l1: string, l2: string, l3: string, l4: string, more: string)
    requires OneLine(l0) && OneLine(l1) && OneLine(l2) && OneLine(l3)
    ensures LinesOf(l0 + ((l1 + (l2 + (l3 + l4))) + more)) == [l0, l1, l2, l3] + LinesOf(l4 + more)
  {
    hide LinesOf, OneLine;
    assert (l1 + (l2 + (l3 + l4))) + more == l1 + (l2 + (l3 + (l4 + more)));
    TwoLines(l2, l3, l4 + more);
    TwoLines(l0, l1, l2 + (l3 + (l4 + more)));
  }

  lemma BaitOrder(ls: seq<string>, goal: string)
    requires Framable(ClientFor(ClientId(2), goal))
    requires 4 <= |ls| && ls[0] == Encode(Identify(1)) && ls[3] == Encode(ClientFor(ClientId(2), goal))
    ensures OrderInLine(ls, 3) == Some(OpenTarget(ClientId(2), goal))
  {
    hide Encode, ParseOrder, TrimSpace;
    MessageRoundTrip(Identify(1), "");
    MessageRoundTrip(ClientFor(ClientId(2), goal), TrimSpace(ls[0])[3..]);
  }

  /** Whatever comes after, the fourth line of the phone's stream is the hidden order. */
  lemma BaitLines(goal: string, more: string)
    requires Framable(ClientFor(ClientId(2), goal))
    ensures OrderAt(Encode(Identify(1)) + (Encode(ClientFor(ClientId(1), JoinHostPort(Bait(goal), 80))) + more), 3)
            == Some(OpenTarget(ClientId(2), goal))
  {
    hide LinesOf, OneLine, OrderInLine, Encode, JoinHostPort, Framable, ParseOrder, TrimSpace;
    var l0, hidden := Encode(Identify(1)), Encode(ClientFor(ClientId(2), goal));
    MessageRoundTrip(Identify(1), "");
    MessageRoundTrip(ClientFor(ClientId(2), goal), "");
    BaitTarget(goal);
    BaitPieces(Bait(goal), hidden);
    BaitEnds();
    FourLines(l0, "conn:c1:[\n", "\n", hidden, "]:80\n", more);
    BaitOrder(LinesOf(l0 + (("conn:c1:[\n" + ("\n" + (hidden + "]:80\n"))) + more)), goal);
  }

  /** The phone's stream when both clients have been notified. */
  function Baited(goal: string, target: string): Stream {
    Stream([Entry(0, Identify(1)), Entry(1, ClientFor(ClientId(1), JoinHostPort(Bait(goal), 80))),
            Entry(3, ClientFor(ClientId(2), target))], "", false)
  }

  lemma PhoneTakesBait(goal: string, target: string)
    requires Framable(ClientFor(ClientId(2), goal))
    ensures OrderAt(BytesOf(Baited(goal, target)), 3) == Some(OpenTarget(ClientId(2), goal))
  {
    hide OrderAt, Encode, Framable;
    var bait, own := ClientFor(ClientId(1), JoinHostPort(Bait(goal), 80)), ClientFor(ClientId(2), target);
    var m0 := Identify(1);
    assert Messages(Baited(goal, target).log) == [] + [m0] + [bait] + [own];
    WireAppend([], m0);
    WireAppend([] + [m0], bait);
    WireAppend([] + [m0] + [bait], own);
    assert BytesOf(Baited(goal, target)) == Encode(m0) + (Encode(bait) + Encode(own));
    BaitLines(goal, Encode(own));
  }

  /** Two clients wait for the phone, and the first has hidden a line in its host. */
  lemma BaitIsLaid(goal: string, req: Socks5.Request, ip: string) returns (w: World)
    requires IsDomain(Bait(goal)) && Possible(Socks5.Connect(req), ip)
    ensures Reachable(w) && w.hs.Keys == {0, 1, 3} && w.hs[0].role == Phone(1)
    ensures w.hs[1].role == Client(Bait(goal), 80)
    ensures w.hs[3] == ParkedClient(req, ip, PhoneId(1), Some(0), 2).(wrote := true, pc := Waiting)
    ensures w.tables.connCID == 2 && Waiter(w.tables, ClientId(2)) == Some(WaitEntry(3, 3))
    ensures 3 in w.chans && w.chans[3] == Chan([], [])
    ensures w.ctl == map[0 := Baited(goal, JoinHostPort(HostOf(req, ip), req.port))]
  {
    hide Reachable, JoinHostPort, Possible, Bait, IsDomain;
    AskForHost(Bait(goal), 80, "");
    var w0 := PhoneAndClient(AskFor(Bait(goal), 80), "");
    var w1 := ClientParks(w0, 3, req, ip);
    w := ClientNotifies(w1, 3);
    assert w.ctl[0] == Baited(goal, JoinHostPort(HostOf(req, ip), req.port));
  }

  lemma TwoClients(w: World)
    requires w.hs.Keys == {0, 1, 2, 3} && w.hs[0].role == Phone(1)
    requires w.hs[1].role.Client? && w.hs[3].role.Client?
    requires w.hs[2].role == Data(ClientId(2), Some(Origin(0, 3)))
    ensures KeysApart(w) && PhonesHonest(w)
  {
  }

  /** A client can hide a line that has an honest phone open a connection to any goal for another
      client, and that client is handed it, whatever else it asked for. */
  lemma BaitCrosses(goal: string, req: Socks5.Request, ip: string)
    requires Framable(ClientFor(ClientId(2), goal)) && IsDomain(Bait(goal)) && Possible(Socks5.Connect(req), ip)
    requires !ReadsAs(goal, HostOf(req, ip), req.port)
    ensures exists w ::
              && Reachable(w) && KeysApart(w) && PhonesHonest(w) && Served(w, 3, 2, HostOf(req, ip), req.port)
              && !FromOwnOrder(w, 3) && 2 in w.hs && w.hs[2].role == Data(ClientId(2), Some(Origin(0, 3)))
              && 0 in w.ctl && OrderAt(BytesOf(w.ctl[0]), 3) == Some(OpenTarget(ClientId(2), goal))
  {
    hide Reachable, Served, KeysApart, PhonesHonest, JoinHostPort, OrderAt, BytesOf, Possible, Bait, Framable, IsDomain;
    var target := JoinHostPort(HostOf(req, ip), req.port);
    var w0 := BaitIsLaid(goal, req, ip);
    PhoneTakesBait(goal, target);
    var w := DataServes(w0, 2, 3, 2, Some(Origin(0, 3)));
    TwoClients(w);
    ServedGot(w, 3, 2, HostOf(req, ip), req.port);
    assert !FromOwnOrder(w, 3);
  }
}
