/** A live operation from submission on: control passes and reconnects in any order, among everything else. */
module LiveGateway {
  import opened Basics
  import opened LiveProtocol
  import opened LiveWorker
  import LiveTheorems

  /**
   * After any number of turns, with anything the peers, the customer and other (even crashed) passes do between them,
   * a finished operation is accounted for as LOC accounts for it.
   */
  method Lifetime(a: Snap, turns: nat) returns (w: World)
    requires Initial(a)
    ensures fresh(w) && w.Valid() && w.start == a
    ensures w.now.op.finished.Some? ==>
              || ((w.now.op.state == Canceled || w.now.op.state == IssuanceRefused)
                  && w.now.res.state == Refunded && !w.now.loc.authorized.Granted?)
              || (w.now.loc.closed.Some?
                  && w.now.res == Reservation(Committed(Some(w.now.loc.closed.value.units)),
                                              Some(w.now.loc.closed.value.billed)))
    ensures w.now.res.state.Committed? ==> w.now.loc.closed.Some?
  {
    hide Initial, Legal, Replay;
    w := new World(a);
    var n := 0;
    while n < turns
      invariant fresh(w) && w.Valid() && w.start == a
    {
      Meanwhile(w);
      var reconnect: bool := *;
      if reconnect {
        var url := UpstreamURL(w);
      } else {
        ghost var err, held, keys := Process(w);
      }
      n := n + 1;
    }
    LiveTheorems.AccountingTruth(w.start, w.log);
  }
}
