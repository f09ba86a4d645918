/** Concrete instances of the rules, one per documented example. */
module Scenarios {
  import opened Base
  import opened Text
  import opened LoadModel
  import opened Classifier
  import opened Direct
  import opened Discovery

  lemma PortText()
    ensures Decimal.IntToString(8080) == "8080"
  {
    assert Decimal.NatToString(8) == "8";
    assert Decimal.NatToString(80) == "80";
    assert Decimal.NatToString(808) == "808";
  }

  /** A bare host gets the scheme the protocol asks for. */
  lemma BareHostExample(useHttps: bool)
    ensures ResolveAddress("db.example.com", 8080, useHttps)
            == (if useHttps then "https://db.example.com:8080" else "http://db.example.com:8080")
  {
    PortText();
    assert "db.example.com"[0] != HTTP_PREFIX[0];
    assert "db.example.com"[0] != HTTPS_PREFIX[0];
  }

  /** A host that has a scheme keeps it whatever the protocol; the port is
      still appended. */
  lemma SchemeHostExample(useHttps: bool)
    ensures ResolveAddress("https://db.example.com", 8080, useHttps) == "https://db.example.com:8080"
  {
    PortText();
    assert "https://db.example.com"[..|HTTPS_PREFIX|] == HTTPS_PREFIX;
  }

  /** A connection-refused cause names the service that was dialled. */
  lemma RefusedExample(host: string, port: int)
    ensures Classify(Client(Some("Connection refused: connect")), host, port)
            == LoadError(Unavailable(host, port), Client(Some("Connection refused: connect")))
  {
    var m := "Connection refused: connect";
    assert m[0..|CONNECTION_REFUSED|] == CONNECTION_REFUSED;
    ContainsWitness(m, CONNECTION_REFUSED, 0);
  }

  /** A version complaint keeps the original failure as its cause. */
  lemma VersionExample(host: string, port: int)
    ensures Classify(IllegalState(Some("The version 1.0 does not match 2.0")), host, port)
            == LoadError(VersionMismatch, IllegalState(Some("The version 1.0 does not match 2.0")))
  {
    assert "The version 1.0 does not match 2.0"[..|VERSION_PREFIX|] == VERSION_PREFIX;
  }

  /** A lower-case `metaType` selects the upper-case constant. */
  lemma LowerCaseDriverExample()
    ensures ParseDriverType(ToUpper("etcd")) == Some(ETCD)
    ensures ParseDriverType(ToUpper("pd")) == Some(PD)
  {
    assert ToUpper("etcd") == "ETCD";
    assert ToUpper("pd") == "PD";
  }
}
