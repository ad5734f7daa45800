/** The phone's control loop: register, read the answer, then carry out one order a line. */
module PhoneTunnel {
  import opened Text
  import opened Control
  import opened Streams

  /** The library's default buffer. */
  const CONTROL_BUFFER: nat := 4096

  lemma CutIsALine(all: string, ok: bool, line: string, rest: string)
    requires Cut(all, '\n', ok, line, rest)
    ensures LinesOf(all) == if ok then [line] + LinesOf(rest) else []
  {
    if ok {
      LinesOfCons(line, rest);
    } else {
      assert all == line;
    }
  }

  /** The order in one line, if there is one. */
  function OrderIn(line: string, self: string): seq<Order> {
    var o := ParseOrder(TrimSpace(line), self);
    if o.Some? then [o.value] else []
  }

  lemma OrdersAfterCut(all: string, ok: bool, line: string, rest: string, self: string)
    requires Cut(all, '\n', ok, line, rest)
    ensures Orders(LinesOf(all), self) == if ok then OrderIn(line, self) + Orders(LinesOf(rest), self) else []
  {
    CutIsALine(all, ok, line, rest);
    if ok {
      assert LinesOf(all)[1..] == LinesOf(rest);
    }
  }

  /** Carry out orders until the control connection is lost.  The result depends on the bytes
      alone, not on how they arrived in segments or how far the reader read ahead. */
  method ControlLoop(r: BufReader<char>, self: string) returns (orders: seq<Order>)
    requires r.Valid()
    modifies r`buf, r.src`inbox
    ensures r.Valid() && orders == Orders(LinesOf(old(r.Stream())), self)
  {
    orders := [];
    ghost var todo := Orders(LinesOf(r.Stream()), self);
    ghost var all := todo;
    while true
      invariant r.Valid() && todo == Orders(LinesOf(r.Stream()), self) && all == orders + todo
      decreases |r.Stream()|
    {
      ghost var before := r.Stream();
      var ok, line := r.ReadUntil('\n');
      OrdersAfterCut(before, ok, line, r.Stream(), self);
      if !ok {
        return;
      }
      var now := OrderIn(line, self);
      todo := Orders(LinesOf(r.Stream()), self);
      Assoc(orders, now, todo);
      orders := orders + now;
    }
  }

  lemma SessionAfterCut(text: string, ok: bool, answer: string, rest: string)
    requires Cut(text, '\n', ok, answer, rest)
    ensures Session(text) == if !ok || !HasPrefix(TrimSpace(answer), "id:") then None
                             else Some(Orders(LinesOf(rest), TrimSpace(answer)[3..]))
  {
    CutIsALine(text, ok, answer, rest);
    if ok {
      assert LinesOf(text)[1..] == LinesOf(rest);
    }
  }

  /** The whole session on a fresh control connection: None when registering fails. */
  method Register(ctrl: Conn<char>) returns (orders: Option<seq<Order>>)
    requires ctrl.Valid()
    modifies ctrl
    ensures old(ctrl.room) < |"register\n"| ==> orders == None
    ensures old(ctrl.room) >= |"register\n"| ==>
              orders == Session(old(ctrl.Pending())) && ctrl.outbox == old(ctrl.outbox) + "register\n"
  {
    hide Session, Orders, LinesOf, TrimSpace, Cut, Flatten;
    ghost var text := ctrl.Pending();
    var n, sent := ctrl.Write("register\n");
    if !sent {
      return None;
    }
    var r := new BufReader<char>(ctrl, CONTROL_BUFFER);
    var ok, resp := r.ReadUntil('\n');
    SessionAfterCut(text, ok, resp, r.Stream());
    if !ok {
      return None;
    }
    if !HasPrefix(TrimSpace(resp), "id:") {
      return None;
    }
    var done := ControlLoop(r, TrimSpace(resp)[3..]);
    return Some(done);
  }

  /** Relay and phone together: whatever the segments, a phone that registers against a relay
      that then writes `ms` carries out exactly what they mean. */
  method ServeMessages(ctrl: Conn<char>, k: nat, ms: seq<Message>, tail: string)
    returns (orders: Option<seq<Order>>)
    requires ctrl.Valid() && |"register\n"| <= ctrl.room
    requires ctrl.Pending() == Wire([Identify(k)] + ms) + tail
    requires (forall m :: m in ms ==> Framable(m)) && '\n' !in tail
    modifies ctrl
    ensures orders == Some(Meanings(ms, PhoneId(k)))
  {
    FramingRoundTrip(k, ms, tail);
    orders := Register(ctrl);
  }
}
