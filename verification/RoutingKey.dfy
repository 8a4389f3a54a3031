/** Routing keys: a document name, and behind the first NUL a session id. */
module RoutingKeys {
  import opened Encoding
  import opened Wrappers

  const SEPARATOR: byte := 0

  /** The part of the key before its first separator, or all of it. */
  function DocumentName(key: Bytes): (name: Bytes)
    ensures SEPARATOR !in name
    ensures name <= key && (|name| < |key| ==> key[|name|] == SEPARATOR)
  {
    if key == [] || key[0] == SEPARATOR then [] else [key[0]] + DocumentName(key[1..])
  }

  function SessionId(key: Bytes): Option<Bytes> {
    var name := DocumentName(key);
    if |name| < |key| then Some(key[|name| + 1..]) else None
  }

  function MakeRoutingKey(name: Bytes, session: Bytes): Bytes {
    name + [SEPARATOR] + session
  }

  lemma {:induction false} NameOfPlain(name: Bytes)
    requires SEPARATOR !in name
    ensures DocumentName(name) == name
  {
    if name != [] {
      assert name[0] in name;
      assert forall b :: b in name[1..] ==> b in name;
      NameOfPlain(name[1..]);
    }
  }

  /** The name of a document addresses the document. */
  lemma NameOfName(key: Bytes)
    ensures DocumentName(DocumentName(key)) == DocumentName(key)
  {
    NameOfPlain(DocumentName(key));
  }

  lemma {:induction false} NameOfMade(name: Bytes, session: Bytes)
    requires SEPARATOR !in name
    ensures DocumentName(MakeRoutingKey(name, session)) == name
  {
    var key := MakeRoutingKey(name, session);
    if name != [] {
      assert name[0] in name;
      assert forall b :: b in name[1..] ==> b in name;
      NameOfMade(name[1..], session);
      assert key[1..] == MakeRoutingKey(name[1..], session);
    }
  }

  /** A key is taken apart into what it was made of exactly when the name holds no separator. */
  lemma RoutingKeyRoundTrip(name: Bytes, session: Bytes)
    ensures var key := MakeRoutingKey(name, session);
            DocumentName(key) == name && SessionId(key) == Some(session) <==> SEPARATOR !in name
  {
    if SEPARATOR !in name {
      NameOfMade(name, session);
      assert MakeRoutingKey(name, session)[|name| + 1..] == session;
    }
  }
}
