/** Messages across the UDP carrier: what one node encodes and sends, the other decodes in the same order. */
module EndToEnd {
  import opened Bytes
  import opened Messages
  import UdpProtocol
  import UdpTheorems

  /** If every payload the sender numbered is the encoding of a message, then in every run the i-th payload the
      receiver publishes decodes to the i-th of those messages. */
  lemma MessagesInOrder(l: UdpProtocol.Link, steps: seq<UdpProtocol.Step>, messages: seq<Message>, i: nat)
    requires UdpTheorems.Run(l, steps)
    requires var n := UdpTheorems.End(l, steps);
             && |n.x.sent| == |messages|
             && (forall j | 0 <= j < |messages| :: Sized(messages[j]) && Encode(messages[j]) == Some(n.x.sent[j]))
             && i < |n.y.ep.published|
    ensures i < |messages| && Decode(UdpTheorems.End(l, steps).y.ep.published[i]) == Some(messages[i])
  {
    UdpTheorems.InOrderExactlyOnce(l, steps);
    var n := UdpTheorems.End(l, steps);
    assert n.y.ep.published[i] == n.x.sent[i];
    DecodeEncode(messages[i]);
  }
}
