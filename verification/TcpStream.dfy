/** main/tcp_stream.c, plain TCP: the stream context and the sockets it accounts for. */
module TcpStream {

  /** How far `open` gets: no socket, no usable address, no connection, or success. */
  datatype OpenResult = NoSocket | BadAddress | Refused | Connected

  /**
   * The stream context. `live` holds the descriptors that are open in the network stack,
   * `issued` counts those it has handed out, so that no descriptor is handed out twice.
   */
  datatype Stream = Stream(isOpen: bool, sock: int, live: set<int>, issued: nat)

  const CLOSED_STREAM := Stream(false, -1, {}, 0)

  /** Every live descriptor was handed out. */
  ghost predicate Sane(s: Stream) {
    && s.sock < s.issued
    && (forall d :: d in s.live ==> 0 <= d < s.issued)
  }

  /** Exactly the socket of an open stream is live. */
  ghost predicate Balanced(s: Stream) {
    s.live == if s.isOpen then {s.sock} else {}
  }

  function AfterOpen(s: Stream, result: OpenResult): Stream {
    match result
    case NoSocket => s.(sock := -1)
    case BadAddress => s.(sock := s.issued, issued := s.issued + 1)
    case Refused => s.(sock := s.issued, issued := s.issued + 1)
    case Connected => Stream(true, s.issued, s.live + {s.issued}, s.issued + 1)
  }

  function AfterClose(s: Stream): Stream {
    if s.isOpen then Stream(false, -1, s.live - {s.sock}, s.issued) else s
  }

  /** Opening keeps the books balanced exactly when the stream was closed, whatever the attempt comes to. */
  lemma OpenKeepsBalance(s: Stream, result: OpenResult)
    requires Sane(s) && Balanced(s)
    ensures Sane(AfterOpen(s, result))
    ensures Balanced(AfterOpen(s, result)) <==> !s.isOpen
    ensures AfterOpen(s, result).isOpen <==> s.isOpen || result == Connected
  {
    var t := AfterOpen(s, result);
    if s.isOpen {
      assert s.sock in s.live;
      assert s.sock in t.live && t.sock != s.sock;
    }
  }

  /** A socket that is live but no longer the stream's own. */
  ghost predicate IsLost(s: Stream, d: int) {
    d in s.live && d != s.sock && 0 <= d < s.issued
  }

  /** Nothing that is done with the stream ever closes it. */
  lemma LostForGood(s: Stream, d: int, result: OpenResult)
    requires IsLost(s, d)
    ensures IsLost(AfterOpen(s, result), d) && IsLost(AfterClose(s), d)
  {
  }

  lemma CloseKeepsBalance(s: Stream)
    requires Sane(s) && Balanced(s)
    ensures Sane(AfterClose(s)) && Balanced(AfterClose(s))
    ensures !AfterClose(s).isOpen && AfterClose(s).live == {} && (s.isOpen ==> AfterClose(s).sock == -1)
  {
  }

  /** The stream object; `result` is what the network stack answers. */
  class StreamContext {
    var sock: int
    var isOpen: bool
    ghost var live: set<int>
    var issued: nat

    ghost function View(): Stream
      reads this
    {
      Stream(isOpen, sock, live, issued)
    }

    constructor ()
      ensures View() == CLOSED_STREAM
    {
      sock, isOpen, live, issued := -1, false, {}, 0;
    }

    /** `socket()` */
    method Socket(result: OpenResult)
      modifies this
      ensures if result == NoSocket then View() == old(View()).(sock := -1)
              else View() == old(View()).(sock := old(issued), live := old(live) + {old(issued)},
                                          issued := old(issued) + 1)
    {
      if result == NoSocket {
        sock := -1;
      } else {
        sock := issued;
        live := live + {sock};
        issued := issued + 1;
      }
    }

    /** `tcp_stream_open` */
    method Open(result: OpenResult) returns (ok: bool)
      requires Sane(View())
      modifies this
      ensures View() == AfterOpen(old(View()), result)
      ensures ok <==> result == Connected
      ensures old(Balanced(View())) ==> (Balanced(View()) <==> !old(isOpen))
    {
      ghost var was := View();
      if Balanced(was) {
        OpenKeepsBalance(was, result);
      }
      Socket(result);
      if sock < 0 {
        return false;
      }
      if result == BadAddress {
        live := live - {sock};
        return false;
      }
      if result == Refused {
        live := live - {sock};
        return false;
      }
      isOpen := true;
      return true;
    }

    /** `tcp_stream_close` */
    method Close() returns (ok: bool)
      modifies this
      ensures View() == AfterClose(old(View()))
      ensures ok <==> old(isOpen)
      ensures ok ==> sock == -1
      ensures old(Balanced(View())) ==> Balanced(View()) && live == {}
    {
      if isOpen {
        live := live - {sock};
        sock := -1;
        isOpen := false;
        return true;
      }
      return false;
    }
  }
}
