/**
 * A chat message and its two comparison operators. Equality looks at the id
 * alone; ordering looks at the timestamp alone.
 */
module Messages {
  import opened Options

  /** Timestamps are instants measured in milliseconds. */
  datatype Message = Message(id: nat, sender: string, content: string, timestamp: int)

  datatype Ordering = Less | Equal | Greater

  /** `PartialEq::eq`: two messages are the same message when their ids agree. */
  predicate SameMessage(a: Message, b: Message)
  {
    a.id == b.id
  }

  /** `PartialOrd::partial_cmp`: compares the timestamps. */
  function PartialCmp(a: Message, b: Message): (r: Option<Ordering>)
    ensures r.Some?
    ensures r.value == Less <==> a.timestamp < b.timestamp
    ensures r.value == Equal <==> a.timestamp == b.timestamp
    ensures r.value == Greater <==> a.timestamp > b.timestamp
  {
    if a.timestamp < b.timestamp then Some(Less)
    else if a.timestamp == b.timestamp then Some(Equal)
    else Some(Greater)
  }

  /** Sender, content and timestamp play no part in equality. */
  lemma SameMessageIgnoresPayload(a: Message, b: Message)
    ensures SameMessage(a, b) <==> a.id == b.id
    ensures SameMessage(a, b) ==> SameMessage(a.(sender := b.sender, content := b.content, timestamp := b.timestamp), b)
  {
  }

  /** Equality is an equivalence relation, because it reduces to id equality. */
  lemma SameMessageIsEquivalence(a: Message, b: Message, c: Message)
    ensures SameMessage(a, a)
    ensures SameMessage(a, b) ==> SameMessage(b, a)
    ensures SameMessage(a, b) && SameMessage(b, c) ==> SameMessage(a, c)
  {
  }

  /** Comparing in the other direction gives the opposite answer. */
  lemma PartialCmpIsAntisymmetric(a: Message, b: Message)
    ensures PartialCmp(a, b) == Some(Less) <==> PartialCmp(b, a) == Some(Greater)
    ensures PartialCmp(a, b) == Some(Equal) <==> PartialCmp(b, a) == Some(Equal)
  {
  }

  /**
   * Ordering ignores the id: one message may be "equal" to another and
   * still compare as earlier or later than it.
   */
  lemma EqualMessagesMayCompareUnequal()
    ensures exists a: Message, b: Message :: SameMessage(a, b) && PartialCmp(a, b) == Some(Less)
    ensures exists a: Message, b: Message :: SameMessage(a, b) && PartialCmp(a, b) == Some(Greater)
  {
    var early := Message(0, "User", "Hello bot.", 0);
    var late := Message(0, "Bot", "Hello user.", 10);
    assert SameMessage(early, late) && PartialCmp(early, late) == Some(Less);
    assert SameMessage(late, early) && PartialCmp(late, early) == Some(Greater);
  }
}
