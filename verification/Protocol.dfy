/** Protocol strings and the identify handler: p2p/src/protocol.rs and p2p/src/client.rs. */
module Protocol {
  import opened Wrappers

  datatype DriaP2PProtocol = DriaP2PProtocol(
    name: string, version: string, identity: string, kademlia: string, requestResponse: string)

  function New(name: string, version: string): DriaP2PProtocol {
    DriaP2PProtocol(
      name, version,
      name + "/" + version,
      "/" + name + "/kad/" + version,
      "/" + name + "/rr/" + version)
  }

  predicate IsCommonKademlia(own: DriaP2PProtocol, protocol: string) {
    "/" + own.name + "/kad/" <= protocol
  }

  /** What is done with a peer that has identified itself. */
  datatype Verdict = Blacklisted | AddedToKademlia | LeftAlone

  function FindCommon(own: DriaP2PProtocol, protocols: seq<string>): Option<string> {
    if protocols == [] then None
    else if IsCommonKademlia(own, protocols[0]) then Some(protocols[0])
    else FindCommon(own, protocols[1..])
  }

  function HandleIdentify(own: DriaP2PProtocol, theirIdentity: string, theirProtocols: seq<string>): Verdict {
    if theirIdentity != own.identity then Blacklisted
    else
      match FindCommon(own, theirProtocols)
      case None => LeftAlone
      case Some(kademlia) => if kademlia == own.kademlia then AddedToKademlia else Blacklisted
  }

  predicate SlashFree(s: string) {
    '/' !in s
  }

  /** A text has one first slash. */
  lemma FirstSlash(a: string, x: string, b: string, y: string)
    requires SlashFree(a) && SlashFree(b)
    requires a + "/" + x == b + "/" + y
    ensures a == b && x == y
  {
    var s := a + "/" + x;
    assert s[|a|] == '/' && s[|b|] == '/';
    assert |a| == |b|;
    assert s[..|a|] == a && s[..|b|] == b;
    assert s[|a| + 1..] == x && s[|b| + 1..] == y;
  }

  /** The prefix test sees the name and nothing else. */
  lemma CommonIffSameName(own: DriaP2PProtocol, name: string, version: string)
    requires SlashFree(own.name) && SlashFree(name)
    ensures IsCommonKademlia(own, New(name, version).kademlia) <==> own.name == name
  {
    var prefix := "/" + own.name + "/kad/";
    var kademlia := New(name, version).kademlia;
    assert kademlia == "/" + name + "/kad/" + version;
    if prefix <= kademlia {
      var rest := kademlia[|prefix|..];
      assert kademlia == prefix + rest;
      assert kademlia[1..] == own.name + "/" + ("kad/" + rest);
      assert kademlia[1..] == name + "/" + ("kad/" + version);
      FirstSlash(own.name, "kad/" + rest, name, "kad/" + version);
    }
    if own.name == name {
      assert kademlia == prefix + version;
    }
  }

  /** The prefix test holds exactly for the Kademlia protocols of the network, in whatever version. */
  lemma CommonIffKademlia(own: DriaP2PProtocol, protocol: string)
    ensures IsCommonKademlia(own, protocol) <==> exists version :: protocol == New(own.name, version).kademlia
  {
    var prefix := "/" + own.name + "/kad/";
    if prefix <= protocol {
      assert protocol == New(own.name, protocol[|prefix|..]).kademlia;
    }
    if version :| protocol == New(own.name, version).kademlia {
      assert protocol == prefix + version;
    }
  }

  /** Two protocols have the same identity only if they are the same. */
  lemma IdentityIsInjective(name1: string, version1: string, name2: string, version2: string)
    requires SlashFree(name1) && SlashFree(name2)
    ensures New(name1, version1).identity == New(name2, version2).identity <==> name1 == name2 && version1 == version2
  {
    if New(name1, version1).identity == New(name2, version2).identity {
      FirstSlash(name1, version1, name2, version2);
    }
  }

  /** Some node's Kademlia prefix starts the text. */
  ghost predicate LooksLikeKademlia(protocol: string) {
    exists name :: SlashFree(name) && "/" + name + "/kad/" <= protocol
  }

  /** The request-response protocol is never taken for Kademlia. */
  lemma RequestResponseIsNotKademlia(name: string, version: string)
    requires SlashFree(name)
    ensures !LooksLikeKademlia(New(name, version).requestResponse)
  {
    var text := New(name, version).requestResponse;
    if other :| SlashFree(other) && "/" + other + "/kad/" <= text {
      var prefix := "/" + other + "/kad/";
      var rest := text[|prefix|..];
      assert text == prefix + rest;
      assert text[1..] == other + "/" + ("kad/" + rest);
      assert text[1..] == name + "/" + ("rr/" + version);
      assert ("kad/" + rest)[0] != ("rr/" + version)[0];
      FirstSlash(other, "kad/" + rest, name, "rr/" + version);
    }
  }

  /** A peer that runs this code announces its own Kademlia protocol and no other one. */
  ghost predicate Announces(own: DriaP2PProtocol, protocols: seq<string>) {
    && own.kademlia in protocols
    && forall p :: p in protocols && p != own.kademlia ==> !LooksLikeKademlia(p)
  }

  /** A peer that announces the two protocols it is made with announces its own Kademlia and no other. */
  lemma OwnProtocolsAnnounce(name: string, version: string, protocols: seq<string>)
    requires SlashFree(name) && New(name, version).kademlia in protocols
    requires forall p :: p in protocols ==>
      p in {New(name, version).kademlia, New(name, version).requestResponse} || !LooksLikeKademlia(p)
    ensures Announces(New(name, version), protocols)
  {
    RequestResponseIsNotKademlia(name, version);
  }

  lemma {:induction false} FindsOwnKademlia(own: DriaP2PProtocol, protocols: seq<string>)
    requires SlashFree(own.name) && own == New(own.name, own.version)
    requires forall p :: p in protocols && p != own.kademlia ==> !LooksLikeKademlia(p)
    ensures FindCommon(own, protocols) == if own.kademlia in protocols then Some(own.kademlia) else None
    decreases |protocols|
  {
    if protocols != [] {
      CommonIffSameName(own, own.name, own.version);
      if protocols[0] != own.kademlia {
        assert protocols[0] in protocols;
        assert !LooksLikeKademlia(protocols[0]);
      }
      FindsOwnKademlia(own, protocols[1..]);
      assert protocols == [protocols[0]] + protocols[1..];
    }
  }

  /**
   Two nodes that announce just the protocols they are made with agree as well: nothing else is assumed
   about what they announce.
   */
  lemma OwnProtocolsAgree(name1: string, version1: string, name2: string, version2: string)
    requires SlashFree(name1) && SlashFree(name2)
    ensures
      var one, two := New(name1, version1), New(name2, version2);
      var oneOnTwo := HandleIdentify(one, two.identity, [two.requestResponse, two.kademlia]);
      var twoOnOne := HandleIdentify(two, one.identity, [one.requestResponse, one.kademlia]);
      && oneOnTwo == twoOnOne
      && oneOnTwo == (if name1 == name2 && version1 == version2 then AddedToKademlia else Blacklisted)
  {
    var one, two := New(name1, version1), New(name2, version2);
    OwnProtocolsAnnounce(name1, version1, [one.requestResponse, one.kademlia]);
    OwnProtocolsAnnounce(name2, version2, [two.requestResponse, two.kademlia]);
    VerdictsAgree(name1, version1, [one.requestResponse, one.kademlia], name2, version2, [two.requestResponse,
                  two.kademlia]);
  }

  /**
   Between two nodes that run this code, each blacklists the other exactly when their names or
   versions differ; so the verdicts agree, and nodes of one network and version never part.
   */
  lemma VerdictsAgree(name1: string, version1: string, protocols1: seq<string>, name2: string, version2: string,
                      protocols2: seq<string>)
    requires SlashFree(name1) && SlashFree(name2)
    requires Announces(New(name1, version1), protocols1) && Announces(New(name2, version2), protocols2)
    ensures
      var one, two := New(name1, version1), New(name2, version2);
      var oneOnTwo := HandleIdentify(one, two.identity, protocols2);
      var twoOnOne := HandleIdentify(two, one.identity, protocols1);
      && oneOnTwo == twoOnOne
      && oneOnTwo == (if name1 == name2 && version1 == version2 then AddedToKademlia else Blacklisted)
  {
    IdentityIsInjective(name1, version1, name2, version2);
    IdentityIsInjective(name2, version2, name1, version1);
    if name1 == name2 && version1 == version2 {
      FindsOwnKademlia(New(name1, version1), protocols2);
      FindsOwnKademlia(New(name2, version2), protocols1);
    }
  }

  /** The first common Kademlia protocol in the list. */
  ghost predicate FirstCommon(own: DriaP2PProtocol, protocols: seq<string>, kademlia: string) {
    exists i :: FirstCommonAt(own, protocols, kademlia, i)
  }

  ghost predicate FirstCommonAt(own: DriaP2PProtocol, protocols: seq<string>, kademlia: string, i: int) {
    && 0 <= i < |protocols|
    && protocols[i] == kademlia && IsCommonKademlia(own, kademlia)
    && forall j :: 0 <= j < i ==> !IsCommonKademlia(own, protocols[j])
  }

  lemma {:induction false} FindsFirstCommon(own: DriaP2PProtocol, protocols: seq<string>, kademlia: string)
    ensures FindCommon(own, protocols) == Some(kademlia) <==> FirstCommon(own, protocols, kademlia)
    decreases |protocols|
  {
    if protocols != [] {
      var rest := protocols[1..];
      FindsFirstCommon(own, rest, kademlia);
      if IsCommonKademlia(own, protocols[0]) {
        assert protocols[0] == kademlia ==> FirstCommonAt(own, protocols, kademlia, 0);
      } else {
        if i :| FirstCommonAt(own, rest, kademlia, i) {
          assert forall j :: 0 < j <= i ==> protocols[j] == rest[j - 1];
          assert FirstCommonAt(own, protocols, kademlia, i + 1);
        }
        if i :| FirstCommonAt(own, protocols, kademlia, i) {
          assert FirstCommonAt(own, rest, kademlia, i - 1);
        }
      }
    }
  }

  /**
   A peer is added exactly if it has our identity and the first Kademlia protocol of our network that it
   announces is ours, and is left alone exactly if it has our identity and announces none; every other
   peer is blacklisted.
   */
  lemma IdentifyExactly(own: DriaP2PProtocol, theirIdentity: string, theirProtocols: seq<string>)
    ensures
      var verdict := HandleIdentify(own, theirIdentity, theirProtocols);
      && (verdict == AddedToKademlia <==>
            theirIdentity == own.identity && FirstCommon(own, theirProtocols, own.kademlia))
      && (verdict == LeftAlone <==>
            theirIdentity == own.identity && forall p :: p in theirProtocols ==> !IsCommonKademlia(own, p))
  {
    hide IsCommonKademlia;
    FindsFirstCommon(own, theirProtocols, own.kademlia);
    NoneIsCommon(own, theirProtocols);
  }

  lemma {:induction false} NoneIsCommon(own: DriaP2PProtocol, protocols: seq<string>)
    ensures FindCommon(own, protocols) == None <==> forall p :: p in protocols ==> !IsCommonKademlia(own, p)
    decreases |protocols|
  {
    hide IsCommonKademlia;
    if protocols != [] {
      NoneIsCommon(own, protocols[1..]);
      assert protocols == [protocols[0]] + protocols[1..];
      assert protocols[0] in protocols;
    }
  }

  /** The names given as examples where the protocol is documented. */
  lemma DocumentedNames()
    ensures
      var dria := New("dria", "0.2");
      dria.identity == "dria/0.2" && dria.kademlia == "/dria/kad/0.2" && dria.requestResponse == "/dria/rr/0.2"
  {
  }
}
